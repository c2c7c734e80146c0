/**
 A contra reads every open amount once, and its lists may name a document twice. When it keeps the books
 sound, and that it settles a line for more than it carries in exactly the other cases.
 */
module ContraRepeats {
  import opened Wrappers
  import opened Ledger
  import opened ServiceModel
  import opened DocumentsModel
  import opened SettlementModel
  import opened BankingModel
  import opened Pools
  import opened Invariant
  import opened Periods
  import opened PostingKeeps
  import opened DocumentsKeep
  import opened PaymentsKeep
  import opened SettlementsKeep
  import opened ContraKeeps

  /** What a contra matches: the smaller of the two open totals. */
  function MatchedAmount(c: Chart, s: State, ar: seq<MoveId>, ap: seq<MoveId>): int {
    Min(Total(SlotsOf(OpenLegs(c, s, ar, true))), Total(SlotsOf(OpenLegs(c, s, ap, false))))
  }

  /** Wherever a document is named again, what is listed before already covers the amount. */
  ghost predicate RepeatsUnreached(legs: seq<Leg>, amount: int) {
    forall i, j :: 0 <= i < j < |legs| && legs[i].doc == legs[j].doc ==> Start(SlotsOf(legs), j) >= amount
  }

  /** What a caller can see before the call: lists of posted moves, with no repetition that is reached. */
  ghost predicate ContraLists(c: Chart, s: State, ar: seq<MoveId>, ap: seq<MoveId>) {
    && NamesPosted(s, ar) && NamesPosted(s, ap)
    && RepeatsUnreached(OpenLegs(c, s, ar, true), MatchedAmount(c, s, ar, ap))
    && RepeatsUnreached(OpenLegs(c, s, ap, false), MatchedAmount(c, s, ar, ap))
  }

  /** Each leg offers all that is open on the counterpart line of a posted row. */
  ghost predicate WholeLegs(c: Chart, s: State, legs: seq<Leg>, isDebit: bool) {
    forall i :: 0 <= i < |legs| ==>
      && LegOk(c, s, legs[i]) && legs[i].isDebit == isDebit
      && OpenCounterpart(c, s, legs[i].doc) == Some(OpenLine(legs[i].slot.line, legs[i].slot.amount, isDebit))
  }

  lemma {:induction false} OpenLegsAreWhole(c: Chart, s: State, ids: seq<MoveId>, isDebit: bool)
    requires NamesPosted(s, ids)
    ensures WholeLegs(c, s, OpenLegs(c, s, ids, isDebit), isDebit)
  {
    if ids != [] {
      var rest := ids[..|ids| - 1];
      assert forall x :: x in rest ==> x in ids;
      assert ids[|ids| - 1] in ids;
      OpenLegsAreWhole(c, s, rest, isDebit);
    }
  }

  // ─── How far an amount reaches ──────────────────────────────────────

  /** The number of legs that an amount reaches. */
  function Reach(legs: seq<Leg>, amount: int): (n: nat)
    ensures n <= |legs|
  {
    if legs == [] || amount <= 0 then 0 else 1 + Reach(legs[1..], amount - legs[0].slot.amount)
  }

  lemma {:induction false} OffsetReaches(c: Chart, s: State, legs: seq<Leg>, line: LineRef, left: int)
    ensures Offset(c, s, legs, line, left) == Offset(c, s, legs[..Reach(legs, left)], line, left)
    decreases |legs|
  {
    hide AllocateOne;
    if legs != [] && left > 0 {
      var take := Min(left, legs[0].slot.amount);
      var n := Reach(legs, left);
      assert legs[..n][0] == legs[0] && legs[..n][1..] == legs[1..][..n - 1];
      var t := AllocateOne(c, s, line, take, legs[0].doc);
      if legs[0].slot.amount < left {
        OffsetReaches(c, t, legs[1..], line, left - take);
      }
    }
  }

  lemma StartFromFront(legs: seq<Leg>, j: nat)
    requires 0 < j <= |legs|
    ensures Start(SlotsOf(legs), j) == legs[0].slot.amount + Start(SlotsOf(legs[1..]), j - 1)
  {
    var pool := SlotsOf(legs)[..j];
    TotalFromFront(pool);
    assert pool[1..] == SlotsOf(legs[1..])[..j - 1];
  }

  lemma {:induction false} ReachedStarts(legs: seq<Leg>, amount: int, j: nat)
    requires j < Reach(legs, amount)
    ensures Start(SlotsOf(legs), j) < amount
    decreases |legs|
  {
    if j == 0 {
      assert SlotsOf(legs)[..0] == [];
    } else {
      ReachedStarts(legs[1..], amount - legs[0].slot.amount, j - 1);
      StartFromFront(legs, j);
    }
  }

  lemma {:induction false} UnreachedStarts(legs: seq<Leg>, amount: int, j: nat)
    requires Reach(legs, amount) <= j <= |legs| && (forall l :: l in legs ==> l.slot.amount > 0)
    ensures j < |legs| ==> Start(SlotsOf(legs), j) >= amount
    decreases |legs|
  {
    if legs != [] {
      if amount > 0 && j > 0 {
        UnreachedStarts(legs[1..], amount - legs[0].slot.amount, j - 1);
        StartFromFront(legs, j);
      } else {
        assert NonNegative(SlotsOf(legs));
        StartMonotone(SlotsOf(legs), 0, j);
      }
    }
  }

  /** The legs that are reached name different documents. */
  lemma ReachedLegsAreOk(c: Chart, s: State, legs: seq<Leg>, isDebit: bool, amount: int)
    requires WholeLegs(c, s, legs, isDebit) && RepeatsUnreached(legs, amount)
    ensures LegsOk(c, s, legs[..Reach(legs, amount)])
  {
    var n := Reach(legs, amount);
    forall i, j | 0 <= i < j < n ensures legs[..n][i].doc != legs[..n][j].doc {
      ReachedStarts(legs, amount, j);
    }
  }

  // ─── Without a reached repetition ───────────────────────────────────

  ghost predicate FirstNamed(legs: seq<Leg>, k: nat)
    requires k < |legs|
  {
    forall i :: 0 <= i < k ==> legs[i].doc != legs[k].doc
  }

  /** Each document is settled for what the amount reaches of its first mention in list order. */
  ghost predicate TakenInListOrder(s: State, t: State, legs: seq<Leg>, amount: int) {
    forall k: nat :: k < |legs| && FirstNamed(legs, k) ==>
      Settled(t.recs, legs[k].slot.line) == Settled(s.recs, legs[k].slot.line) + Taken(SlotsOf(legs), k, amount)
  }

  lemma TakenOfReached(legs: seq<Leg>, n: nat, k: nat, amount: int)
    requires k < n <= |legs|
    ensures Taken(SlotsOf(legs[..n]), k, amount) == Taken(SlotsOf(legs), k, amount)
  {
    assert SlotsOf(legs[..n])[..k] == SlotsOf(legs)[..k];
    assert SlotsOf(legs[..n])[..k + 1] == SlotsOf(legs)[..k + 1];
  }

  lemma TakenOfUnreached(legs: seq<Leg>, k: nat, amount: int)
    requires Reach(legs, amount) <= k < |legs| && (forall l :: l in legs ==> l.slot.amount > 0) && amount >= 0
    ensures Taken(SlotsOf(legs), k, amount) == 0
  {
    UnreachedStarts(legs, amount, k);
    StartStep(SlotsOf(legs), k);
    assert legs[k] in legs;
  }

  /** A line that neither side's legs offer is left as it was. */
  lemma ContraLeaves(c: Chart, s: State, t: State, arLegs: seq<Leg>, apLegs: seq<Leg>, matched: int, line: LineRef)
    requires ContraStart(c, s, t, arLegs, apLegs, matched) && line.move < |s.moves|
    requires forall l :: l in arLegs || l in apLegs ==> l.slot.line != line
    ensures var u := Offset(c, t, arLegs, LineRef(|s.moves|, 1), matched);
            Settled(Offset(c, u, apLegs, LineRef(|s.moves|, 0), matched).recs, line) == Settled(s.recs, line)
  {
    hide InvExcept, Guarded, Extends, Offset, LegOk, Room;
    var id := |s.moves|;
    ContraMiddle(c, s, t, arLegs, apLegs, matched);
    var u := Offset(c, t, arLegs, LineRef(id, 1), matched);
    LegsBelow(c, s, apLegs);
    OffsetKeeps(c, u, apLegs, LineRef(id, 0), matched);
    OffsetLeaves(t.recs, u.recs, arLegs, LineRef(id, 1), line);
    OffsetLeaves(u.recs, Offset(c, u, apLegs, LineRef(id, 0), matched).recs, apLegs, LineRef(id, 0), line);
  }

  /** The tables after both sides were offset. */
  function BothOffset(c: Chart, t: State, id: MoveId, arLegs: seq<Leg>, apLegs: seq<Leg>, matched: int): State {
    Offset(c, Offset(c, t, arLegs, LineRef(id, 1), matched), apLegs, LineRef(id, 0), matched)
  }

  lemma BothReach(c: Chart, t: State, id: MoveId, arLegs: seq<Leg>, apLegs: seq<Leg>, matched: int)
    ensures BothOffset(c, t, id, arLegs, apLegs, matched) ==
            BothOffset(c, t, id, arLegs[..Reach(arLegs, matched)], apLegs[..Reach(apLegs, matched)], matched)
  {
    OffsetReaches(c, t, arLegs, LineRef(id, 1), matched);
    OffsetReaches(c, Offset(c, t, arLegs, LineRef(id, 1), matched), apLegs, LineRef(id, 0), matched);
  }

  /** The contra in steps: the entry, then both sides. */
  lemma ContraInSteps(c: Chart, s: State, partner: PartnerId, ar: seq<MoveId>, ap: seq<MoveId>, date: Date)
    requires Inv(c, s) && c.ControlAccountsOk()
    ensures var r := Contra(c, s, partner, ar, ap, date);
            var receivable, payable := c.PartnerAccount(Some(partner), Receivable), c.PartnerAccount(Some(partner), Payable);
            var matched := MatchedAmount(c, s, ar, ap);
            if matched <= 0 || receivable.None? || payable.None? then r.db == s && r.result.Err?
            else
              var posted := CreateAndPost(c, s, ContraMove(partner, date, payable.value, receivable.value, matched));
              if posted.result.Err? then r == posted
              else r == Reply(BothOffset(c, posted.db, |s.moves|, OpenLegs(c, s, ar, true), OpenLegs(c, s, ap, false), matched), Ok(|s.moves|))
  {
    hide InvExcept, Offset, OpenLegs, CreateAndPost, Progress, Room, Opposite;
    var receivable, payable := c.PartnerAccount(Some(partner), Receivable), c.PartnerAccount(Some(partner), Payable);
    var matched := MatchedAmount(c, s, ar, ap);
    if matched > 0 && receivable.Some? && payable.Some? {
      ContraEntry(c, s, partner, date, payable.value, receivable.value, matched);
    }
  }

  lemma ContraStarts(c: Chart, s: State, partner: PartnerId, date: Date, arLegs: seq<Leg>, apLegs: seq<Leg>, matched: int)
    requires Inv(c, s) && c.ControlAccountsOk() && matched > 0
    requires WholeLegs(c, s, arLegs, true) && WholeLegs(c, s, apLegs, false) && LegsOk(c, s, arLegs) && LegsOk(c, s, apLegs)
    requires c.PartnerAccount(Some(partner), Receivable).Some? && c.PartnerAccount(Some(partner), Payable).Some?
    ensures var receivable, payable := c.PartnerAccount(Some(partner), Receivable).value, c.PartnerAccount(Some(partner), Payable).value;
            var posted := CreateAndPost(c, s, ContraMove(partner, date, payable, receivable, matched));
            && Progress(c, s, posted.db, {})
            && (posted.result.Ok? ==> ContraStart(c, s, posted.db, arLegs, apLegs, matched))
  {
    hide InvExcept, Guarded, Extends, CreateAndPost, LegOk, Room;
    var receivable, payable := c.PartnerAccount(Some(partner), Receivable).value, c.PartnerAccount(Some(partner), Payable).value;
    ContraEntry(c, s, partner, date, payable, receivable, matched);
    OppositeSidesDiffer(c, s, arLegs, apLegs, true);
  }

  lemma WholePrefix(c: Chart, s: State, legs: seq<Leg>, isDebit: bool, n: nat)
    requires WholeLegs(c, s, legs, isDebit) && n <= |legs|
    ensures WholeLegs(c, s, legs[..n], isDebit)
    ensures forall l :: l in legs ==> l.slot.amount > 0 && l.slot.line.move == l.doc < |s.moves|
    ensures forall x, y :: x in legs && y in legs && x.doc == y.doc ==> x == y
  {
    forall l | l in legs ensures l.slot.amount > 0 && l.slot.line.move == l.doc < |s.moves|
    {
      var i :| 0 <= i < |legs| && legs[i] == l;
      assert LegOk(c, s, legs[i]);
    }
  }

  ghost predicate AllTaken(s: State, t: State, legs: seq<Leg>, amount: int) {
    forall k: nat :: k < |legs| ==>
      Settled(t.recs, legs[k].slot.line) == Settled(s.recs, legs[k].slot.line) + Taken(SlotsOf(legs), k, amount)
  }

  /** One side of a contra that stays within its reach. */
  lemma SideInListOrder(s: State, t: State, legs: seq<Leg>, matched: int)
    requires matched > 0 && (forall l :: l in legs ==> l.slot.amount > 0)
    requires forall x, y :: x in legs && y in legs && x.doc == y.doc ==> x == y
    requires AllTaken(s, t, legs[..Reach(legs, matched)], matched)
    requires forall l :: l in legs && (forall x :: x in legs[..Reach(legs, matched)] ==> x.doc != l.doc) ==>
               Settled(t.recs, l.slot.line) == Settled(s.recs, l.slot.line)
    ensures TakenInListOrder(s, t, legs, matched)
  {
    hide Settled, Taken;
    var n := Reach(legs, matched);
    forall k: nat | k < |legs| && FirstNamed(legs, k)
      ensures Settled(t.recs, legs[k].slot.line) == Settled(s.recs, legs[k].slot.line) + Taken(SlotsOf(legs), k, matched)
    {
      if k < n {
        TakenOfReached(legs, n, k, matched);
        var some := legs[..n];
        assert some[k] == legs[k];
      } else {
        TakenOfUnreached(legs, k, matched);
        assert legs[k] in legs;
        var l := legs[k];
        forall x | x in legs[..n] ensures x.doc != l.doc {
          var i :| 0 <= i < n && legs[..n][i] == x;
          assert legs[i] == x;
        }
        assert Settled(t.recs, l.slot.line) == Settled(s.recs, l.slot.line);
      }
    }
  }

  lemma ContraProgress(c: Chart, s: State, partner: PartnerId, ar: seq<MoveId>, ap: seq<MoveId>, date: Date)
    requires Inv(c, s) && c.ControlAccountsOk() && ContraLists(c, s, ar, ap)
    ensures Progress(c, s, Contra(c, s, partner, ar, ap, date).db, {})
    ensures Contra(c, s, partner, ar, ap, date).result.Ok? ==>
              && TakenInListOrder(s, Contra(c, s, partner, ar, ap, date).db, OpenLegs(c, s, ar, true), MatchedAmount(c, s, ar, ap))
              && TakenInListOrder(s, Contra(c, s, partner, ar, ap, date).db, OpenLegs(c, s, ap, false), MatchedAmount(c, s, ar, ap))
  {
    hide InvExcept, Guarded, Extends, Offset, CreateAndPost, LegOk, OpenLegs, Contra, RepeatsUnreached, TakenInListOrder, WholeLegs;
    ContraInSteps(c, s, partner, ar, ap, date);
    var arLegs, apLegs := OpenLegs(c, s, ar, true), OpenLegs(c, s, ap, false);
    var matched := MatchedAmount(c, s, ar, ap);
    if matched <= 0 || c.PartnerAccount(Some(partner), Receivable).None? || c.PartnerAccount(Some(partner), Payable).None? {
      NoProgress(c, s, {});
    } else {
      OpenLegsAreWhole(c, s, ar, true);
      OpenLegsAreWhole(c, s, ap, false);
      ReachedLegsAreOk(c, s, arLegs, true, matched);
      ReachedLegsAreOk(c, s, apLegs, false, matched);
      var n, m := Reach(arLegs, matched), Reach(apLegs, matched);
      WholePrefix(c, s, arLegs, true, n);
      WholePrefix(c, s, apLegs, false, m);
      ContraStarts(c, s, partner, date, arLegs[..n], apLegs[..m], matched);
      var receivable, payable := c.PartnerAccount(Some(partner), Receivable).value, c.PartnerAccount(Some(partner), Payable).value;
      var posted := CreateAndPost(c, s, ContraMove(partner, date, payable, receivable, matched));
      if posted.result.Ok? {
        BothReach(c, posted.db, |s.moves|, arLegs, apLegs, matched);
        ReachedContra(c, s, posted.db, arLegs, apLegs, matched);
      }
    }
  }

  lemma ReachedContra(c: Chart, s: State, t: State, arLegs: seq<Leg>, apLegs: seq<Leg>, matched: int)
    requires WholeLegs(c, s, arLegs, true) && WholeLegs(c, s, apLegs, false)
    requires ContraStart(c, s, t, arLegs[..Reach(arLegs, matched)], apLegs[..Reach(apLegs, matched)], matched)
    ensures var v := BothOffset(c, t, |s.moves|, arLegs[..Reach(arLegs, matched)], apLegs[..Reach(apLegs, matched)], matched);
            Progress(c, s, v, {}) && TakenInListOrder(s, v, arLegs, matched) && TakenInListOrder(s, v, apLegs, matched)
  {
    hide InvExcept, Guarded, Extends, Offset, LegOk, Settled, Taken, TakenInListOrder;
    var n, m := Reach(arLegs, matched), Reach(apLegs, matched);
    var v := BothOffset(c, t, |s.moves|, arLegs[..n], apLegs[..m], matched);
    WholePrefix(c, s, arLegs, true, n);
    WholePrefix(c, s, apLegs, false, m);
    ContraEnd(c, s, t, arLegs[..n], apLegs[..m], matched);
    ContraTakes(c, s, t, arLegs[..n], apLegs[..m], matched);
    OthersLeft(c, s, t, arLegs, apLegs, matched);
    SideInListOrder(s, v, arLegs, matched);
    SideInListOrder(s, v, apLegs, matched);
  }

  lemma OthersLeft(c: Chart, s: State, t: State, arLegs: seq<Leg>, apLegs: seq<Leg>, matched: int)
    requires WholeLegs(c, s, arLegs, true) && WholeLegs(c, s, apLegs, false)
    requires ContraStart(c, s, t, arLegs[..Reach(arLegs, matched)], apLegs[..Reach(apLegs, matched)], matched)
    ensures var v := BothOffset(c, t, |s.moves|, arLegs[..Reach(arLegs, matched)], apLegs[..Reach(apLegs, matched)], matched);
            && (forall l :: l in arLegs && (forall x :: x in arLegs[..Reach(arLegs, matched)] ==> x.doc != l.doc) ==>
                  Settled(v.recs, l.slot.line) == Settled(s.recs, l.slot.line))
            && (forall l :: l in apLegs && (forall x :: x in apLegs[..Reach(apLegs, matched)] ==> x.doc != l.doc) ==>
                  Settled(v.recs, l.slot.line) == Settled(s.recs, l.slot.line))
  {
    hide InvExcept, Guarded, Extends, Offset, LegOk, Settled;
    var n, m := Reach(arLegs, matched), Reach(apLegs, matched);
    var v := BothOffset(c, t, |s.moves|, arLegs[..n], apLegs[..m], matched);
    WholePrefix(c, s, arLegs, true, n);
    WholePrefix(c, s, apLegs, false, m);
    SidesApart(c, s, arLegs, apLegs);
    forall l | l in arLegs && (forall x :: x in arLegs[..n] ==> x.doc != l.doc) ensures Settled(v.recs, l.slot.line) == Settled(s.recs, l.slot.line) {
      ContraLeaves(c, s, t, arLegs[..n], apLegs[..m], matched, l.slot.line);
    }
    forall l | l in apLegs && (forall x :: x in apLegs[..m] ==> x.doc != l.doc) ensures Settled(v.recs, l.slot.line) == Settled(s.recs, l.slot.line) {
      ContraLeaves(c, s, t, arLegs[..n], apLegs[..m], matched, l.slot.line);
    }
  }

  lemma SidesApart(c: Chart, s: State, arLegs: seq<Leg>, apLegs: seq<Leg>)
    requires WholeLegs(c, s, arLegs, true) && WholeLegs(c, s, apLegs, false)
    ensures forall x, y :: x in arLegs && y in apLegs ==> x.doc != y.doc && x.slot.line != y.slot.line
  {
    forall x, y | x in arLegs && y in apLegs ensures x.doc != y.doc && x.slot.line != y.slot.line {
      var i :| 0 <= i < |arLegs| && arLegs[i] == x;
      var j :| 0 <= j < |apLegs| && apLegs[j] == y;
      assert LegOk(c, s, arLegs[i]) && LegOk(c, s, apLegs[j]);
    }
  }

  // ─── With one ───────────────────────────────────────────────────────

  /** The leg offers all that its line has left. */
  ghost predicate IsFull(c: Chart, s: State, l: Leg) {
    LegOk(c, s, l) && l.slot.amount == LineGross(LineAt(s, l.slot.line)) - Settled(s.recs, l.slot.line)
  }

  ghost predicate FullLegs(c: Chart, s: State, legs: seq<Leg>) {
    forall i :: 0 <= i < |legs| ==> IsFull(c, s, legs[i])
  }

  lemma AllocateOneRecs(c: Chart, s: State, line: LineRef, take: int, doc: MoveId)
    ensures AllocateOne(c, s, line, take, doc).recs ==
            match OpenCounterpart(c, s, doc)
            case None => s.recs
            case Some(o) => s.recs + [Pair(o.line, o.isDebit, line, take, 0)]
  {
  }

  /** Nothing is ever taken back. */
  lemma {:induction false} OffsetGrows(c: Chart, s: State, legs: seq<Leg>, line: LineRef, left: int, other: LineRef)
    requires forall l :: l in legs ==> l.slot.amount > 0
    ensures Settled(Offset(c, s, legs, line, left).recs, other) >= Settled(s.recs, other)
    decreases |legs|
  {
    hide AllocateOne, OpenCounterpart;
    if legs != [] && left > 0 {
      assert legs[0] in legs;
      var take := Min(left, legs[0].slot.amount);
      AllocateOneRecs(c, s, line, take, legs[0].doc);
      if OpenCounterpart(c, s, legs[0].doc).Some? {
        var o := OpenCounterpart(c, s, legs[0].doc).value;
        SettledOfOneMore(s.recs, Pair(o.line, o.isDebit, line, take, 0), other);
      }
      OffsetGrows(c, AllocateOne(c, s, line, take, legs[0].doc), legs[1..], line, left - take, other);
    }
  }

  lemma {:induction false} OffsetSplit(c: Chart, s: State, a: seq<Leg>, b: seq<Leg>, line: LineRef, left: int)
    requires (forall l :: l in a ==> l.slot.amount > 0) && Total(SlotsOf(a)) < left
    ensures Offset(c, s, a + b, line, left) == Offset(c, Offset(c, s, a, line, left), b, line, left - Total(SlotsOf(a)))
    decreases |a|
  {
    hide AllocateOne;
    if a == [] {
      assert a + b == b;
    } else {
      assert a[0] in a;
      TotalFromFront(SlotsOf(a));
      assert SlotsOf(a)[1..] == SlotsOf(a[1..]);
      assert (a + b)[1..] == a[1..] + b;
      TotalOfPositive(a[1..]);
      OffsetSplit(c, AllocateOne(c, s, line, a[0].slot.amount, a[0].doc), a[1..], b, line, left - a[0].slot.amount);
    }
  }

  lemma TotalOfPositive(legs: seq<Leg>)
    requires forall l :: l in legs ==> l.slot.amount > 0
    ensures Total(SlotsOf(legs)) >= 0
  {
    assert NonNegative(SlotsOf(legs));
    StartMonotone(SlotsOf(legs), 0, |legs|);
    assert SlotsOf(legs)[..|legs|] == SlotsOf(legs);
  }

  ghost predicate DistinctBefore(legs: seq<Leg>, j: nat)
    requires j <= |legs|
  {
    forall x, y :: 0 <= x < y < j ==> legs[x].doc != legs[y].doc
  }

  /** From any reached repetition back to the first. */
  lemma {:induction false} FirstReachedRepeat(legs: seq<Leg>, amount: int, i: nat, j: nat) returns (first: nat, again: nat)
    requires i < j < |legs| && legs[i].doc == legs[j].doc && Start(SlotsOf(legs), j) < amount
    requires NonNegative(SlotsOf(legs))
    ensures first < again < |legs| && legs[first].doc == legs[again].doc && Start(SlotsOf(legs), again) < amount
    ensures DistinctBefore(legs, again)
    decreases j
  {
    hide Start, NonNegative;
    if DistinctBefore(legs, j) {
      first, again := i, j;
    } else {
      var x: nat, y: nat :| x < y < j && legs[x].doc == legs[y].doc;
      StartMonotone(SlotsOf(legs), y, j);
      first, again := FirstReachedRepeat(legs, amount, x, y);
    }
  }

  ghost predicate OverSettles(s: State, t: State, legs: seq<Leg>) {
    exists l :: l in legs && RefOk(s, l.slot.line) && Settled(t.recs, l.slot.line) > LineGross(LineAt(s, l.slot.line))
  }

  /** Before the repetition the document's line is used up. */
  lemma UsedUpBefore(c: Chart, s: State, some: seq<Leg>, line: LineRef, left: int, i: nat)
    requires InvExcept(c, s, {line.move}) && LegsOk(c, s, some) && Room(s, line, left) && IsEntry(s, line) && i < |some|
    requires forall l :: l in some ==> l.doc != line.move && Opposite(s, l.isDebit, line)
    requires FullLegs(c, s, some) && NonNegative(SlotsOf(some)) && 0 <= Total(SlotsOf(some)) <= left
    ensures Settled(Offset(c, s, some, line, left).recs, some[i].slot.line) == LineGross(LineAt(s, some[i].slot.line))
  {
    hide InvExcept, Offset, Room, Opposite, LegOk, LegsOk;
    OffsetTakes(c, s, some, line, left, i);
    TakenInFull(SlotsOf(some), i, left);
  }

  /** A later turn of the same document takes more. */
  lemma TurnTakes(c: Chart, mid: State, legs: seq<Leg>, line: LineRef, left: int, target: LineRef)
    requires legs != [] && left > 0 && (forall l :: l in legs ==> l.slot.amount > 0)
    requires OpenCounterpart(c, mid, legs[0].doc).Some? && OpenCounterpart(c, mid, legs[0].doc).value.line == target
    ensures Settled(Offset(c, mid, legs, line, left).recs, target) > Settled(mid.recs, target)
  {
    hide AllocateOne, OpenCounterpart, Settled;
    assert legs[0] in legs;
    var take := Min(left, legs[0].slot.amount);
    AllocateOneRecs(c, mid, line, take, legs[0].doc);
    var o := OpenCounterpart(c, mid, legs[0].doc).value;
    SettledOfOneMore(mid.recs, Pair(o.line, o.isDebit, line, take, 0), target);
    OffsetGrows(c, AllocateOne(c, mid, line, take, legs[0].doc), legs[1..], line, left - take, target);
  }

  lemma FullPrefix(c: Chart, s: State, legs: seq<Leg>, j: nat)
    requires FullLegs(c, s, legs) && j <= |legs|
    requires DistinctBefore(legs, j)
    ensures FullLegs(c, s, legs[..j]) && LegsOk(c, s, legs[..j])
  {
    hide LegOk;
  }

  lemma SplitAt(legs: seq<Leg>, i: nat, j: nat)
    requires i < j < |legs| && (forall l :: l in legs ==> l.slot.amount > 0)
    ensures legs == legs[..j] + legs[j..] && legs[j..][0] == legs[j] && legs[..j][i] == legs[i]
    ensures forall l :: l in legs[..j] || l in legs[j..] ==> l in legs
    ensures Start(SlotsOf(legs), j) == Total(SlotsOf(legs[..j])) >= 0 && NonNegative(SlotsOf(legs[..j]))
  {
    assert SlotsOf(legs)[..j] == SlotsOf(legs[..j]);
    TotalOfPositive(legs[..j]);
  }

  /** A reached repetition takes more from its document than its line carries. */
  lemma RepeatOverSettles(c: Chart, s: State, legs: seq<Leg>, line: LineRef, left: int, i: nat, j: nat)
    requires InvExcept(c, s, {line.move}) && FullLegs(c, s, legs) && Room(s, line, left) && IsEntry(s, line) && 0 <= left
    requires forall l :: l in legs ==> l.doc != line.move && Opposite(s, l.isDebit, line) && l.slot.amount > 0
    requires i < j < |legs| && legs[i].doc == legs[j].doc && Start(SlotsOf(legs), j) < left && DistinctBefore(legs, j)
    ensures Settled(Offset(c, s, legs, line, left).recs, legs[i].slot.line) > LineGross(LineAt(s, legs[i].slot.line))
  {
    hide InvExcept, Offset, Room, Opposite, LegOk, FullLegs, LegsOk, Settled, Total, Start, NonNegative, OpenCounterpart, DistinctBefore, LineGross;
    SplitAt(legs, i, j);
    var some, rest := legs[..j], legs[j..];
    FullPrefix(c, s, legs, j);
    UsedUpBefore(c, s, some, line, left, i);
    OffsetSplit(c, s, some, rest, line, left);
    var mid := Offset(c, s, some, line, left);
    OffsetSameEntries(c, s, some, line, left);
    FullLeg(c, s, legs, i);
    SameTarget(c, s, mid, legs[i]);
    TurnTakes(c, mid, rest, line, left - Total(SlotsOf(some)), legs[i].slot.line);
  }

  lemma ReachedRepeat(c: Chart, s: State, legs: seq<Leg>, line: LineRef, left: int)
    requires InvExcept(c, s, {line.move}) && FullLegs(c, s, legs) && Room(s, line, left) && IsEntry(s, line) && 0 <= left
    requires forall l :: l in legs ==> l.doc != line.move && Opposite(s, l.isDebit, line) && l.slot.amount > 0
    requires !RepeatsUnreached(legs, left)
    ensures OverSettles(s, Offset(c, s, legs, line, left), legs)
  {
    hide InvExcept, Offset, Room, Opposite, LegOk, FullLegs, Settled, Start, DistinctBefore, LineGross;
    var x: nat, y: nat :| x < y < |legs| && legs[x].doc == legs[y].doc && Start(SlotsOf(legs), y) < left;
    var i, j := FirstReachedRepeat(legs, left, x, y);
    RepeatOverSettles(c, s, legs, line, left, i, j);
    FullLeg(c, s, legs, i);
    assert legs[i] in legs;
  }

  lemma FullLeg(c: Chart, s: State, legs: seq<Leg>, i: nat)
    requires FullLegs(c, s, legs) && i < |legs|
    ensures LegOk(c, s, legs[i]) && RefOk(s, legs[i].slot.line) && legs[i].slot.line.move == legs[i].doc
  {
  }

  lemma SameTarget(c: Chart, s: State, t: State, l: Leg)
    requires LegOk(c, s, l) && SameEntries(s, t)
    ensures OpenCounterpart(c, t, l.doc).Some? && OpenCounterpart(c, t, l.doc).value.line == l.slot.line
  {
    SameLinesFacts(c, s.moves[l.doc].lines, t.moves[l.doc].lines);
  }

  /** The tables right after the contra entry: everything else as before. */
  ghost predicate EntryAdded(s: State, t: State) {
    && |t.moves| == |s.moves| + 1 && t.recs == s.recs && t.moves[|s.moves|].kind.Entry?
    && (forall i :: 0 <= i < |s.moves| ==> t.moves[i] == s.moves[i])
  }

  lemma WholeIsFull(c: Chart, s: State, t: State, legs: seq<Leg>, isDebit: bool)
    requires WholeLegs(c, s, legs, isDebit) && EntryAdded(s, t)
    ensures FullLegs(c, t, legs)
  {
    forall i | 0 <= i < |legs|
      ensures IsFull(c, t, legs[i])
    {
      assert LegOk(c, s, legs[i]);
    }
  }

  /** What over-settles a line of tables with the same rows over-settles it here, and stays so as rows are added. */
  lemma OverSettlesCarries(s: State, t: State, u: State, v: State, legs: seq<Leg>)
    requires OverSettles(t, u, legs)
    requires forall l :: l in legs ==> l.slot.line.move < |s.moves|
    requires |s.moves| <= |t.moves| && forall i :: 0 <= i < |s.moves| ==> SameEntry(s.moves[i], t.moves[i])
    requires forall l :: l in legs ==> Settled(v.recs, l.slot.line) >= Settled(u.recs, l.slot.line)
    ensures OverSettles(s, v, legs)
  {
    var l :| l in legs && RefOk(t, l.slot.line) && Settled(u.recs, l.slot.line) > LineGross(LineAt(t, l.slot.line));
    assert SameEntry(s.moves[l.slot.line.move], t.moves[l.slot.line.move]);
  }

  /** A reached repetition among the receivables. */
  lemma ArRepeat(c: Chart, s: State, t: State, arLegs: seq<Leg>, apLegs: seq<Leg>, matched: int)
    requires WholeLegs(c, s, arLegs, true) && WholeLegs(c, s, apLegs, false)
    requires ContraStart(c, s, t, [], [], matched) && !RepeatsUnreached(arLegs, matched)
    ensures OverSettles(s, BothOffset(c, t, |s.moves|, arLegs, apLegs, matched), arLegs)
  {
    hide InvExcept, Guarded, Extends, Offset, LegOk, Room, Opposite, Settled, FullLegs, RepeatsUnreached;
    var id := |s.moves|;
    WholeIsFull(c, s, t, arLegs, true);
    WholePrefix(c, s, arLegs, true, 0);
    WholePrefix(c, s, apLegs, false, 0);
    InvWeaken(c, t, {}, {id});
    AllFacing(c, s, arLegs, true);
    ReachedRepeat(c, t, arLegs, LineRef(id, 1), matched);
    var u := Offset(c, t, arLegs, LineRef(id, 1), matched);
    var v := Offset(c, u, apLegs, LineRef(id, 0), matched);
    forall l | l in arLegs ensures Settled(v.recs, l.slot.line) >= Settled(u.recs, l.slot.line) {
      OffsetGrows(c, u, apLegs, LineRef(id, 0), matched, l.slot.line);
    }
    EntriesOf(s, t);
    OverSettlesCarries(s, t, u, v, arLegs);
  }

  lemma EntriesOf(s: State, t: State)
    requires EntryAdded(s, t)
    ensures forall i :: 0 <= i < |s.moves| ==> SameEntry(s.moves[i], t.moves[i])
  {
  }

  lemma AllFacing(c: Chart, s: State, legs: seq<Leg>, isDebit: bool)
    requires WholeLegs(c, s, legs, isDebit)
    ensures forall l :: l in legs ==> l.isDebit == isDebit
  {
  }

  /** The payables are as full after the receivable side was offset as before. */
  lemma FullAfterAr(c: Chart, s: State, t: State, arLegs: seq<Leg>, apLegs: seq<Leg>, matched: int, k: nat)
    requires WholeLegs(c, s, apLegs, false) && k < |apLegs|
    requires ContraStart(c, s, t, arLegs, [], matched) && (forall x :: x in arLegs ==> x.doc != apLegs[k].doc)
    ensures IsFull(c, Offset(c, t, arLegs, LineRef(|s.moves|, 1), matched), apLegs[k])
  {
    var l := apLegs[k];
    assert LegOk(c, s, l);
    assert l.slot.amount == LineGross(LineAt(s, l.slot.line)) - Settled(s.recs, l.slot.line) && l.slot.line.move == l.doc;
    hide InvExcept, Guarded, Extends, Offset, LegOk, Room, Opposite, Settled;
    assert LegsOk(c, s, [l]);
    ContraMiddle(c, s, t, arLegs, [l], matched);
    var u := Offset(c, t, arLegs, LineRef(|s.moves|, 1), matched);
    LinesOfLegs(c, s, arLegs, |s.moves|);
    OffsetLeaves(t.recs, u.recs, arLegs, LineRef(|s.moves|, 1), l.slot.line);
    assert [l][0] == l;
    OffsetSameEntries(c, t, arLegs, LineRef(|s.moves|, 1), matched);
    SameGross(s, t, u, l.slot.line);
  }

  lemma SameGross(s: State, t: State, u: State, line: LineRef)
    requires EntryAdded(s, t) && SameEntries(t, u) && RefOk(s, line)
    ensures LineGross(LineAt(u, line)) == LineGross(LineAt(s, line))
  {
    assert SameEntry(t.moves[line.move], u.moves[line.move]);
  }

  /** A reached repetition among the payables only. */
  lemma ApRepeat(c: Chart, s: State, t: State, arLegs: seq<Leg>, apLegs: seq<Leg>, matched: int)
    requires WholeLegs(c, s, arLegs, true) && WholeLegs(c, s, apLegs, false)
    requires ContraStart(c, s, t, arLegs[..Reach(arLegs, matched)], [], matched) && !RepeatsUnreached(apLegs, matched)
    ensures OverSettles(s, BothOffset(c, t, |s.moves|, arLegs, apLegs, matched), apLegs)
  {
    hide InvExcept, Guarded, Extends, Offset, LegOk, Room, Opposite, Settled, RepeatsUnreached, SameEntry;
    var id := |s.moves|;
    var reached := arLegs[..Reach(arLegs, matched)];
    WholePrefix(c, s, arLegs, true, 0);
    WholePrefix(c, s, apLegs, false, 0);
    SidesApart(c, s, arLegs, apLegs);
    AllFacing(c, s, apLegs, false);
    var u := Offset(c, t, reached, LineRef(id, 1), matched);
    OffsetReaches(c, t, arLegs, LineRef(id, 1), matched);
    ContraMiddle(c, s, t, reached, [], matched);
    assert forall x :: x in reached ==> x in arLegs;
    forall k | 0 <= k < |apLegs|
      ensures IsFull(c, u, apLegs[k])
    {
      assert apLegs[k] in apLegs;
      FullAfterAr(c, s, t, reached, apLegs, matched, k);
    }
    StillOpposite(t, u, false, LineRef(id, 0));
    ReachedRepeat(c, u, apLegs, LineRef(id, 0), matched);
    OffsetSameEntries(c, t, reached, LineRef(id, 1), matched);
    EntriesChain(s, t, u);
    OverSettlesCarries(s, u, Offset(c, u, apLegs, LineRef(id, 0), matched), Offset(c, u, apLegs, LineRef(id, 0), matched), apLegs);
  }

  lemma StillOpposite(t: State, u: State, isDebit: bool, line: LineRef)
    requires Opposite(t, isDebit, line) && |u.moves| == |t.moves| && u.moves[line.move] == t.moves[line.move]
    ensures Opposite(u, isDebit, line)
  {
  }

  lemma EntriesChain(s: State, t: State, u: State)
    requires EntryAdded(s, t) && SameEntries(t, u)
    ensures forall i :: 0 <= i < |s.moves| ==> SameEntry(s.moves[i], u.moves[i])
  {
    forall i | 0 <= i < |s.moves| ensures SameEntry(s.moves[i], u.moves[i]) {
      assert SameEntry(t.moves[i], u.moves[i]) && s.moves[i] == t.moves[i];
    }
  }

  /** Taken in list order, no line gives more than it carries. */
  lemma InOrderFits(c: Chart, s: State, t: State, legs: seq<Leg>, isDebit: bool, amount: int)
    requires WholeLegs(c, s, legs, isDebit) && TakenInListOrder(s, t, legs, amount) && amount >= 0
    ensures !OverSettles(s, t, legs)
  {
    WholePrefix(c, s, legs, isDebit, 0);
    forall l | l in legs && RefOk(s, l.slot.line) ensures Settled(t.recs, l.slot.line) <= LineGross(LineAt(s, l.slot.line)) {
      var k := FirstMention(legs, l);
      TakenWithinSlot(SlotsOf(legs), k, amount);
      assert LegOk(c, s, legs[k]);
    }
  }

  lemma {:induction false} FirstMention(legs: seq<Leg>, l: Leg) returns (k: nat)
    requires l in legs && forall x, y :: x in legs && y in legs && x.doc == y.doc ==> x == y
    ensures k < |legs| && legs[k] == l && FirstNamed(legs, k)
  {
    k :| k < |legs| && legs[k] == l;
    while exists i: nat :: i < k && legs[i].doc == l.doc
      invariant k < |legs| && legs[k] == l
      decreases k
    {
      var i: nat :| i < k && legs[i].doc == l.doc;
      assert legs[i] in legs;
      k := i;
    }
  }

  /** The contra right after its entry, without looking at any leg. */
  lemma BareStart(c: Chart, s: State, partner: PartnerId, date: Date, matched: int)
    requires Inv(c, s) && c.ControlAccountsOk() && matched > 0
    requires c.PartnerAccount(Some(partner), Receivable).Some? && c.PartnerAccount(Some(partner), Payable).Some?
    ensures var receivable, payable := c.PartnerAccount(Some(partner), Receivable).value, c.PartnerAccount(Some(partner), Payable).value;
            var posted := CreateAndPost(c, s, ContraMove(partner, date, payable, receivable, matched));
            posted.result.Ok? ==> ContraStart(c, s, posted.db, [], [], matched)
  {
    assert WholeLegs(c, s, [], true) && WholeLegs(c, s, [], false);
    ContraStarts(c, s, partner, date, [], [], matched);
  }

  /**
   A contra settles one of its documents for more than the document's line carries exactly when a list
   names a document again before the amounts listed until then cover what is matched.
   */
  lemma ContraOverSettlesWhen(c: Chart, s: State, partner: PartnerId, ar: seq<MoveId>, ap: seq<MoveId>, date: Date)
    requires Inv(c, s) && c.ControlAccountsOk() && NamesPosted(s, ar) && NamesPosted(s, ap)
    requires Contra(c, s, partner, ar, ap, date).result.Ok?
    ensures var t := Contra(c, s, partner, ar, ap, date).db;
            (OverSettles(s, t, OpenLegs(c, s, ar, true)) || OverSettles(s, t, OpenLegs(c, s, ap, false))) <==> !ContraLists(c, s, ar, ap)
  {
    hide InvExcept, Guarded, Extends, Offset, CreateAndPost, LegOk, OpenLegs, Contra, RepeatsUnreached, TakenInListOrder, WholeLegs,
         OverSettles, ContraStart, Progress, LegsOk, NamesPosted;
    ContraInSteps(c, s, partner, ar, ap, date);
    var arLegs, apLegs := OpenLegs(c, s, ar, true), OpenLegs(c, s, ap, false);
    var matched := MatchedAmount(c, s, ar, ap);
    OpenLegsAreWhole(c, s, ar, true);
    OpenLegsAreWhole(c, s, ap, false);
    var receivable, payable := c.PartnerAccount(Some(partner), Receivable).value, c.PartnerAccount(Some(partner), Payable).value;
    var posted := CreateAndPost(c, s, ContraMove(partner, date, payable, receivable, matched)).db;
    if ContraLists(c, s, ar, ap) {
      ContraProgress(c, s, partner, ar, ap, date);
      InOrderFits(c, s, Contra(c, s, partner, ar, ap, date).db, arLegs, true, matched);
      InOrderFits(c, s, Contra(c, s, partner, ar, ap, date).db, apLegs, false, matched);
    } else if !RepeatsUnreached(arLegs, matched) {
      BareStart(c, s, partner, date, matched);
      ArRepeat(c, s, posted, arLegs, apLegs, matched);
    } else {
      ReachedLegsAreOk(c, s, arLegs, true, matched);
      WholePrefix(c, s, arLegs, true, Reach(arLegs, matched));
      NoLegs(c, s);
      ContraStarts(c, s, partner, date, arLegs[..Reach(arLegs, matched)], [], matched);
      ApRepeat(c, s, posted, arLegs, apLegs, matched);
    }
  }

  lemma NoLegs(c: Chart, s: State)
    ensures WholeLegs(c, s, [], false) && LegsOk(c, s, [])
  {
  }

  /** One open invoice named twice against a bill of twice its amount or more. */
  lemma RepeatedInvoiceIsOverSettled(c: Chart, s: State, partner: PartnerId, invoice: MoveId, bill: MoveId, date: Date)
    requires Inv(c, s) && c.ControlAccountsOk() && NamesPosted(s, [invoice, invoice]) && NamesPosted(s, [bill])
    requires OpenCounterpart(c, s, invoice).Some? && OpenCounterpart(c, s, bill).Some?
    requires var i, b := OpenCounterpart(c, s, invoice).value, OpenCounterpart(c, s, bill).value;
             i.isDebit && !b.isDebit && 0 < 2 * i.amount <= b.amount
    requires Contra(c, s, partner, [invoice, invoice], [bill], date).result.Ok?
    ensures var i := OpenCounterpart(c, s, invoice).value;
            Settled(Contra(c, s, partner, [invoice, invoice], [bill], date).db.recs, i.line) > LineGross(LineAt(s, i.line))
  {
    hide InvExcept, Guarded, Extends, Offset, CreateAndPost, Contra, Settled, OpenCounterpart, ContraStart, Progress, OpenLegs, WholeLegs, NamesPosted;
    var i, b := OpenCounterpart(c, s, invoice).value, OpenCounterpart(c, s, bill).value;
    var x, y := Leg(invoice, Slot(i.line, i.amount), true), Leg(bill, Slot(b.line, b.amount), false);
    LegsOfTwice(c, s, invoice, x);
    LegsOfOne(c, s, bill, y);
    OpenLegsAreWhole(c, s, [invoice, invoice], true);
    OpenLegsAreWhole(c, s, [bill], false);
    ContraInSteps(c, s, partner, [invoice, invoice], [bill], date);
    BareStart(c, s, partner, date, 2 * i.amount);
    var receivable, payable := c.PartnerAccount(Some(partner), Receivable).value, c.PartnerAccount(Some(partner), Payable).value;
    var posted := CreateAndPost(c, s, ContraMove(partner, date, payable, receivable, 2 * i.amount)).db;
    assert [x, x][0].doc == [x, x][1].doc && Start(SlotsOf([x, x]), 1) == i.amount;
    ArRepeat(c, s, posted, [x, x], [y], 2 * i.amount);
  }

  lemma LegsOfOne(c: Chart, s: State, id: MoveId, l: Leg)
    requires OpenCounterpart(c, s, id) == Some(OpenLine(l.slot.line, l.slot.amount, l.isDebit)) && l.doc == id && l.slot.amount > 0
    ensures OpenLegs(c, s, [id], l.isDebit) == [l] && Total(SlotsOf([l])) == l.slot.amount
  {
    assert [id][..0] == [] && SlotsOf([l])[..0] == [];
    assert OpenLegs(c, s, [], l.isDebit) == [];
  }

  lemma LegsOfTwice(c: Chart, s: State, id: MoveId, l: Leg)
    requires OpenCounterpart(c, s, id) == Some(OpenLine(l.slot.line, l.slot.amount, l.isDebit)) && l.doc == id && l.slot.amount > 0
    ensures OpenLegs(c, s, [id, id], l.isDebit) == [l, l] && Total(SlotsOf([l, l])) == 2 * l.slot.amount
    ensures Start(SlotsOf([l, l]), 1) == l.slot.amount
  {
    LegsOfOne(c, s, id, l);
    assert [id, id][..1] == [id] && SlotsOf([l, l])[..1] == SlotsOf([l]);
  }
}
