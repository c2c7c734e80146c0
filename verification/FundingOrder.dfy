/**
 Funding order: targets are settled first come, first served, by the credits, then the write-off, then
 the cash; what the targets do not need of the cash stays on the payment as an advance.
 */
module FundingOrder {
  import opened Wrappers
  import opened Ledger
  import opened ServiceModel
  import opened CurrencyModel
  import opened DocumentsModel
  import opened SettlementModel
  import opened Pools
  import opened Invariant
  import opened Periods
  import opened PostingKeeps
  import opened DocumentsKeep
  import opened PaymentsKeep
  import opened SettlementsKeep
  import opened SettlementEffects

  function TotalOf(legs: seq<Leg>): int {
    Total(SlotsOf(legs))
  }

  /**
   From `s` to `t`: the targets received credits, write-off and cash in list order, the credits were
   drawn before anything else, and payment `p` keeps what was not needed.
   */
  ghost predicate Funded(c: Chart, s: State, t: State, targets: seq<Leg>, credits: seq<Leg>, writeOff: int, cash: int, p: MoveId) {
    && (forall i: nat :: i < |targets| ==>
          OpenAmount(c, t, targets[i].doc) ==
          OpenAmount(c, s, targets[i].doc) - Taken(SlotsOf(targets), i, TotalOf(credits) + writeOff + cash))
    && (forall k: nat :: k < |credits| ==>
          OpenAmount(c, t, credits[k].doc) ==
          OpenAmount(c, s, credits[k].doc) - Taken(SlotsOf(credits), k, TotalOf(targets)))
    && (cash > 0 ==> OpenAmount(c, t, p) == cash - Clamp(TotalOf(targets) - TotalOf(credits) - writeOff, cash))
  }

  lemma TotalOfThree(a: seq<Leg>, b: seq<Leg>, d: seq<Leg>)
    ensures TotalOf(a + b + d) == TotalOf(a) + TotalOf(b) + TotalOf(d)
    ensures SlotsOf(a + b + d) == SlotsOf(a) + SlotsOf(b + d) == SlotsOf(a + b) + SlotsOf(d)
    ensures TotalOf(a + b) == TotalOf(a) + TotalOf(b)
  {
    SlotsOfConcat(a, b);
    SlotsOfConcat(a + b, d);
    SlotsOfConcat(b, d);
    TotalOfConcat(SlotsOf(a), SlotsOf(b));
    TotalOfConcat(SlotsOf(a + b), SlotsOf(d));
  }

  lemma TotalOfFew(legs: seq<Leg>)
    requires |legs| <= 1
    ensures TotalOf(legs) == if legs == [] then 0 else legs[0].slot.amount
  {
    if legs != [] {
      var one := [legs[0].slot];
      assert SlotsOf(legs) == one == [] + one;
      StartsAtLast([], legs[0].slot);
    }
  }

  /** The last fund takes what the others leave to be funded. */
  lemma LastFund(before: seq<Leg>, cash: Leg, need: int)
    requires cash.slot.amount > 0
    ensures Taken(SlotsOf(before + [cash]), |before|, need) == Clamp(need - TotalOf(before), cash.slot.amount)
  {
    assert SlotsOf(before + [cash]) == SlotsOf(before) + [cash.slot];
    TakenOfLast(SlotsOf(before), cash.slot, need);
    hide Taken, Total;
  }

  lemma FundingOfAll(c: Chart, s: State, u: State, targets: seq<Leg>, credits: seq<Leg>, written: seq<Leg>, cash: seq<Leg>,
                     side: bool, docs: seq<MoveId>, p: MoveId)
    requires Longer(s, u) && LegsOk(c, s, targets + credits) && LegsOk(c, u, targets + (credits + written + cash))
    requires AllFace(targets, side) && AllFace(credits + written + cash, !side)
    requires |cash| <= 1 && (forall l :: l in cash ==> l.doc == p && l.slot.amount == OpenAmount(c, u, p) > 0)
    ensures Funded(c, s, Settle(c, u, targets + (credits + written + cash), docs), targets, credits, TotalOf(written), TotalOf(cash), p)
  {
    hide LegsOk, Settle, Taken, Total, OpenAmount, Longer, AllFace;
    var funds := credits + written + cash;
    var t := Settle(c, u, targets + funds, docs);
    FundedInOrder(c, u, targets, funds, side, docs);
    TotalOfThree(credits, written, cash);
    forall i: nat | i < |targets|
      ensures OpenAmount(c, t, targets[i].doc) ==
              OpenAmount(c, s, targets[i].doc) - Taken(SlotsOf(targets), i, TotalOf(credits) + TotalOf(written) + TotalOf(cash))
    {
      assert (targets + credits)[i] == targets[i];
      LegAt(c, s, targets + credits, i);
      SameOpen(c, s, u, targets[i].doc);
    }
    forall k: nat | k < |credits|
      ensures OpenAmount(c, t, credits[k].doc) ==
              OpenAmount(c, s, credits[k].doc) - Taken(SlotsOf(credits), k, TotalOf(targets))
    {
      assert (targets + credits)[|targets| + k] == credits[k] && funds[k] == credits[k];
      LegAt(c, s, targets + credits, |targets| + k);
      SameOpen(c, s, u, credits[k].doc);
      TakenOfPrefix(SlotsOf(credits), SlotsOf(written + cash), k, TotalOf(targets));
    }
    TotalOfFew(cash);
    if |cash| == 1 {
      assert cash[0] in cash && cash == [cash[0]];
      var k := |credits + written|;
      assert funds[k] == cash[0] && funds == (credits + written) + [cash[0]];
      LastFund(credits + written, cash[0], TotalOf(targets));
    }
  }

  // ─── apply_payment ──────────────────────────────────────────────────

  lemma CashLegIsWhole(c: Chart, s: State, h: Header, amount: int)
    requires Inv(c, s) && PostCash(c, s, h, amount).result.Ok?
    ensures var cash := PostCash(c, s, h, amount).result.value;
            && |cash| <= 1 && TotalOf(cash) == Max(0, amount) && (|cash| == 1 <==> amount > 0)
            && (forall l :: l in cash ==>
                  l.doc == |s.moves| && l.slot.amount == OpenAmount(c, PostCash(c, s, h, amount).db, |s.moves|) > 0)
    ensures Longer(s, PostCash(c, s, h, amount).db)
  {
    hide InvExcept, RegisterPayment;
    PostCashEffect(c, s, h, amount);
    if amount > 0 {
      CashEffect(c, s, h, amount);
    }
    TotalOfFew(PostCash(c, s, h, amount).result.value);
  }

  lemma ApplyLegsFunded(c: Chart, s: State, h: Header, amount: int, targets: seq<Leg>, credits: seq<Leg>)
    requires Inv(c, s) && FundsApart(c) && LegsOk(c, s, targets + credits)
    requires AllFace(targets, h.inbound) && AllFace(credits, !h.inbound)
    requires ApplyLegs(c, s, h, amount, targets, credits).result.Ok?
    ensures Funded(c, s, ApplyLegs(c, s, h, amount, targets, credits).db, targets, credits, 0, Max(0, amount), |s.moves|)
    ensures ApplyLegs(c, s, h, amount, targets, credits).result == Ok(if amount > 0 then Some(|s.moves|) else None)
  {
    hide InvExcept, PostCash, FundsApart, LegsOk, Settle, Funded, TotalOf;
    var posted := PostCash(c, s, h, amount);
    var cash := posted.result.value;
    PostCashEffect(c, s, h, amount);
    CashLegIsWhole(c, s, h, amount);
    PostedCashFaces(c, s, h, amount);
    SettleAfterCash(c, s, posted.db, targets + credits, cash);
    var all := targets + credits + cash;
    assert all == targets + (credits + [] + cash);
    FundingOfAll(c, s, posted.db, targets, credits, [], cash, h.inbound, DocsOf(all), |s.moves|);
    TotalOfFew([]);
  }

  lemma FacesOf(legs: seq<Leg>, side: bool)
    requires forall l :: l in legs ==> l.isDebit == side
    ensures AllFace(legs, side)
  {
    forall i | 0 <= i < |legs| ensures legs[i].isDebit == side {
      assert legs[i] in legs;
    }
  }

  lemma SideIsSorted(c: Chart, s: State, legs: seq<Leg>, side: bool)
    requires LegsOk(c, s, legs)
    ensures OldestFirst(s, SortByDate(s, Facing(legs, side)))
    ensures forall l :: l in SortByDate(s, Facing(legs, side)) <==> l in legs && l.isDebit == side
    ensures AllFace(SortByDate(s, Facing(legs, side)), side)
  {
    hide LegsOk, OldestFirst;
    FacingIsOk(c, s, legs, side);
    LegsBelow(c, s, Facing(legs, side));
    SortIsOldestFirst(s, Facing(legs, side));
    FacesOf(SortByDate(s, Facing(legs, side)), side);
  }

  /**
   `apply_payment`: the picked documents are settled oldest first, by the picked credit notes (oldest
   first) and then the cash; the payment keeps the part of the cash that they do not need.
   */
  lemma ApplyPaymentOldestFirst(c: Chart, s: State, h: Header, amount: int, picked: seq<MoveId>)
    requires Inv(c, s) && PickedOk(s, picked) && FundsApart(c)
    requires ApplyPayment(c, s, h, amount, picked).result.Ok?
    ensures Picked(c, s, picked).Ok?
    ensures var legs := Picked(c, s, picked).value;
            var targets, credits := SortByDate(s, Facing(legs, h.inbound)), SortByDate(s, Facing(legs, !h.inbound));
            && OldestFirst(s, targets) && OldestFirst(s, credits)
            && (forall l :: l in targets <==> l in legs && l.isDebit == h.inbound)
            && (forall l :: l in credits <==> l in legs && l.isDebit != h.inbound)
            && Funded(c, s, ApplyPayment(c, s, h, amount, picked).db, targets, credits, 0, Max(0, amount), |s.moves|)
            && ApplyPayment(c, s, h, amount, picked).result == Ok(if amount > 0 then Some(|s.moves|) else None)
  {
    hide InvExcept, PickedOk, Picked, LegsOk, ApplyLegs, FundsApart, OldestFirst, Funded, SortByDate, Facing;
    var legs := Picked(c, s, picked).value;
    PickedAreOk(c, s, picked);
    SideIsSorted(c, s, legs, h.inbound);
    SideIsSorted(c, s, legs, !h.inbound);
    OrderedAreOk(c, s, legs, h.inbound);
    ApplyLegsFunded(c, s, h, amount, SortByDate(s, Facing(legs, h.inbound)), SortByDate(s, Facing(legs, !h.inbound)));
  }

  /** A picked document that is open on a side. */
  ghost predicate OpenOn(c: Chart, s: State, id: MoveId, isDebit: bool) {
    && id < |s.moves|
    && var o := OpenCounterpart(c, s, id);
       o.Some? && o.value.amount > 0 && o.value.isDebit == isDebit
  }

  /** Picked documents offer the whole of what is open on them. */
  lemma {:induction false} PickedAreWhole(c: Chart, s: State, picked: seq<MoveId>)
    requires Picked(c, s, picked).Ok?
    ensures forall l :: l in Picked(c, s, picked).value ==> OpenOn(c, s, l.doc, l.isDebit) && l.slot.amount == OpenAmount(c, s, l.doc)
    ensures forall id, side :: id in picked && OpenOn(c, s, id, side) ==>
              exists l :: l in Picked(c, s, picked).value && l.doc == id && l.isDebit == side
  {
    hide OpenOf;
    if picked != [] {
      var rest, last := picked[..|picked| - 1], picked[|picked| - 1];
      PickedAreWhole(c, s, rest);
      var before, all := Picked(c, s, rest).value, Picked(c, s, picked).value;
      assert forall l :: l in before ==> l in all;
      forall id, side | id in picked && OpenOn(c, s, id, side) ensures exists l :: l in all && l.doc == id && l.isDebit == side {
        if id in rest {
          var l :| l in before && l.doc == id && l.isDebit == side;
          assert l in all;
        } else {
          assert id == last && all[|before|] in all;
        }
      }
    }
  }

  /** Before or on the day of, with the smaller id deciding within a day. */
  ghost predicate Older(s: State, a: MoveId, b: MoveId)
    requires a < |s.moves| && b < |s.moves|
  {
    s.moves[a].date < s.moves[b].date || (s.moves[a].date == s.moves[b].date && a < b)
  }

  lemma OlderStandsFirst(s: State, sorted: seq<Leg>, i: nat, k: nat)
    requires OldestFirst(s, sorted) && k <= i < |sorted|
    ensures !Older(s, sorted[i].doc, sorted[k].doc)
  {
    if k < i {
      assert s.moves[sorted[k].doc].date <= s.moves[sorted[i].doc].date;
    }
  }

  /** On one side of a funded settlement: who stands behind receives only when whoever stands before is done. */
  lemma BeforeIsDone(c: Chart, s: State, t: State, legs: seq<Leg>, funds: int, i: nat, k: nat)
    requires LegsOk(c, s, legs) && funds >= 0 && i < k < |legs|
    requires forall x: nat :: x < |legs| ==> OpenAmount(c, t, legs[x].doc) == OpenAmount(c, s, legs[x].doc) - Taken(SlotsOf(legs), x, funds)
    requires OpenAmount(c, t, legs[k].doc) < OpenAmount(c, s, legs[k].doc)
    ensures OpenAmount(c, t, legs[i].doc) == OpenAmount(c, s, legs[i].doc) - legs[i].slot.amount
  {
    hide OpenAmount, LegsOk, Taken;
    LegsArePositive(c, s, legs);
    TakenInOrder(SlotsOf(legs), i, k, funds);
  }

  lemma TotalIsPositive(c: Chart, s: State, legs: seq<Leg>)
    requires LegsOk(c, s, legs)
    ensures TotalOf(legs) >= 0
  {
    LegsArePositive(c, s, legs);
    hide LegsOk;
    StartMonotone(SlotsOf(legs), 0, |legs|);
    assert SlotsOf(legs)[..|legs|] == SlotsOf(legs);
  }

  /**
   What oldest first means. Of two picked documents open on the same side, targets or credits alike, the
   younger one is touched only when the older one is settled in full.
   */
  lemma OlderIsSettledFirst(c: Chart, s: State, h: Header, amount: int, picked: seq<MoveId>, older: MoveId, younger: MoveId, side: bool)
    requires Inv(c, s) && PickedOk(s, picked) && FundsApart(c)
    requires ApplyPayment(c, s, h, amount, picked).result.Ok?
    requires older in picked && younger in picked && OpenOn(c, s, older, side) && OpenOn(c, s, younger, side)
    requires Older(s, older, younger)
    ensures var t := ApplyPayment(c, s, h, amount, picked).db;
            OpenAmount(c, t, younger) < OpenAmount(c, s, younger) ==> OpenAmount(c, t, older) == 0
  {
    hide InvExcept, PickedOk, Picked, LegsOk, ApplyPayment, FundsApart, OldestFirst, SortByDate, Facing, OpenOn, Older, OpenAmount, Taken, TotalOf;
    var t := ApplyPayment(c, s, h, amount, picked).db;
    ApplyPaymentOldestFirst(c, s, h, amount, picked);
    PickedAreOk(c, s, picked);
    var legs := Picked(c, s, picked).value;
    OrderedAreOk(c, s, legs, h.inbound);
    var targets, credits := SortByDate(s, Facing(legs, h.inbound)), SortByDate(s, Facing(legs, !h.inbound));
    SplitIsOk(c, s, targets, credits);
    TotalIsPositive(c, s, targets);
    TotalIsPositive(c, s, credits);
    if side == h.inbound {
      SideInOrder(c, s, t, picked, targets, TotalOf(credits) + Max(0, amount), older, younger, side);
    } else {
      SideInOrder(c, s, t, picked, credits, TotalOf(targets), older, younger, side);
    }
  }

  lemma SideInOrder(c: Chart, s: State, t: State, picked: seq<MoveId>, mine: seq<Leg>, funds: int, older: MoveId, younger: MoveId, side: bool)
    requires Picked(c, s, picked).Ok? && OldestFirst(s, mine) && LegsOk(c, s, mine) && funds >= 0
    requires forall l :: l in mine <==> l in Picked(c, s, picked).value && l.isDebit == side
    requires forall x: nat :: x < |mine| ==> OpenAmount(c, t, mine[x].doc) == OpenAmount(c, s, mine[x].doc) - Taken(SlotsOf(mine), x, funds)
    requires older in picked && younger in picked && OpenOn(c, s, older, side) && OpenOn(c, s, younger, side)
    requires Older(s, older, younger)
    ensures OpenAmount(c, t, younger) < OpenAmount(c, s, younger) ==> OpenAmount(c, t, older) == 0
  {
    hide LegsOk, OldestFirst, Older, OpenAmount, Taken, Picked, OpenCounterpart;
    PickedAreWhole(c, s, picked);
    var legs := Picked(c, s, picked).value;
    var a :| a in legs && a.doc == older && a.isDebit == side;
    var b :| b in legs && b.doc == younger && b.isDebit == side;
    if OpenAmount(c, t, younger) < OpenAmount(c, s, younger) {
      SettledInOrder(c, s, t, mine, funds, a, b);
    }
  }

  lemma SettledInOrder(c: Chart, s: State, t: State, mine: seq<Leg>, funds: int, a: Leg, b: Leg)
    requires OldestFirst(s, mine) && LegsOk(c, s, mine) && funds >= 0 && a in mine && b in mine
    requires forall x: nat :: x < |mine| ==> OpenAmount(c, t, mine[x].doc) == OpenAmount(c, s, mine[x].doc) - Taken(SlotsOf(mine), x, funds)
    requires a.doc < |s.moves| && b.doc < |s.moves| && Older(s, a.doc, b.doc)
    requires OpenAmount(c, t, b.doc) < OpenAmount(c, s, b.doc)
    ensures OpenAmount(c, t, a.doc) == OpenAmount(c, s, a.doc) - a.slot.amount
  {
    hide LegsOk, OldestFirst, Older, OpenAmount, Taken;
    var i: nat :| i < |mine| && mine[i] == a;
    var k: nat :| k < |mine| && mine[k] == b;
    if k <= i {
      OlderStandsFirst(s, mine, i, k);
      assert false;
    }
    BeforeIsDone(c, s, t, mine, funds, i, k);
  }

  lemma SplitIsOk(c: Chart, s: State, a: seq<Leg>, b: seq<Leg>)
    requires LegsOk(c, s, a + b)
    ensures LegsOk(c, s, a) && LegsOk(c, s, b)
  {
    hide LegOk;
    forall i | 0 <= i < |a| ensures LegOk(c, s, a[i]) {
      assert (a + b)[i] == a[i];
    }
    forall i | 0 <= i < |b| ensures LegOk(c, s, b[i]) {
      assert (a + b)[|a| + i] == b[i];
    }
    forall i, j | 0 <= i < j < |a| ensures a[i].doc != a[j].doc {
      assert (a + b)[i] == a[i] && (a + b)[j] == a[j];
    }
    forall i, j | 0 <= i < j < |b| ensures b[i].doc != b[j].doc {
      assert (a + b)[|a| + i] == b[i] && (a + b)[|a| + j] == b[j];
    }
  }

  // ─── post_settlement ────────────────────────────────────────────────

  /** The amount that is written off: nothing unless a positive difference is given. */
  function Written(w: Option<WriteOff>): int {
    if w.None? then 0 else Max(0, w.value.amount)
  }

  lemma WrittenTotal(c: Chart, s: State, h: Header, w: Option<WriteOff>, counterpart: AccountId)
    requires Inv(c, s) && PostWriteOff(c, s, h, w, counterpart).result.Ok?
    ensures TotalOf(PostWriteOff(c, s, h, w, counterpart).result.value) == Written(w)
    ensures |PostWriteOff(c, s, h, w, counterpart).result.value| == (if Written(w) > 0 then 1 else 0)
    ensures |PostWriteOff(c, s, h, w, counterpart).db.moves| == |s.moves| + (if Written(w) > 0 then 1 else 0)
    ensures Longer(s, PostWriteOff(c, s, h, w, counterpart).db)
  {
    hide InvExcept, CreateAndPost;
    PostWriteOffEffect(c, s, h, w, counterpart);
    TotalOfFew(PostWriteOff(c, s, h, w, counterpart).result.value);
    if w.Some? && w.value.amount > 0 {
      CreateAndPostExtends(c, s, WriteOffMove(h, w.value, counterpart));
    }
  }

  lemma LongerChain(s: State, t: State, u: State)
    requires Longer(s, t) && Longer(t, u)
    ensures Longer(s, u)
  {
    assert u.moves[..|s.moves|] == u.moves[..|t.moves|][..|s.moves|];
  }

  /** What each list of legs offers, and of which rows: the documents', the difference's, the cash's. */
  ghost predicate InTurn(c: Chart, s: State, t: State, u: State, written: seq<Leg>, cash: seq<Leg>) {
    && Longer(s, t) && Longer(t, u) && LegsOk(c, t, written) && LegsOk(c, u, cash)
    && (forall l :: l in written ==> |s.moves| <= l.doc < |t.moves|)
    && (forall l :: l in cash ==> |t.moves| <= l.doc)
  }

  lemma LegsInTurn(c: Chart, s: State, t: State, u: State, legs: seq<Leg>, side: bool, written: seq<Leg>, cash: seq<Leg>)
    requires LegsOk(c, s, legs) && InTurn(c, s, t, u, written, cash)
    ensures var targets, credits := Facing(legs, side), Facing(legs, !side);
            && LegsOk(c, s, targets + credits) && AllFace(targets, side) && AllFace(credits, !side)
            && LegsOk(c, u, targets + (credits + written + cash)) && LegsOk(c, u, (targets + written) + (credits + cash))
  {
    hide LegsOk, Facing, AllFace;
    var targets, credits := Facing(legs, side), Facing(legs, !side);
    FacingIsOk(c, s, legs, side);
    FacingIsOk(c, s, legs, !side);
    FacesOf(targets, side);
    FacesOf(credits, !side);
    OppositeSidesDiffer(c, s, targets, credits, side);
    ConcatIsOk(c, s, targets, credits);
    LegsBelow(c, s, targets);
    LegsBelow(c, s, credits);
    LongerChain(s, t, u);
    StayInLonger(c, s, u, targets);
    StayInLonger(c, s, u, credits);
    StayInLonger(c, t, u, written);
    ConcatIsOk(c, u, targets, written);
    ConcatIsOk(c, u, credits, cash);
    ConcatIsOk(c, u, targets + written, credits + cash);
    ConcatIsOk(c, u, credits, written);
    ConcatIsOk(c, u, credits + written, cash);
    ConcatIsOk(c, u, targets, credits + written + cash);
  }

  lemma StayInLonger(c: Chart, s: State, u: State, legs: seq<Leg>)
    requires LegsOk(c, s, legs) && Longer(s, u)
    ensures LegsOk(c, u, legs)
  {
    hide LegsOk;
    forall i | 0 <= i < |s.moves| ensures u.moves[i] == s.moves[i] {
      assert u.moves[..|s.moves|][i] == u.moves[i];
    }
    LegsStayOk(c, s, u, legs);
  }

  lemma ConcatFaces(a: seq<Leg>, b: seq<Leg>, side: bool)
    requires AllFace(a, side) && AllFace(b, side)
    ensures AllFace(a + b, side)
  {
  }

  lemma SideReordered(targets: seq<Leg>, credits: seq<Leg>, written: seq<Leg>, cash: seq<Leg>, isDebit: bool)
    requires Side(credits, isDebit) == [] || Side(written, isDebit) == []
    ensures Side(targets + credits + written + cash, isDebit) == Side((targets + written) + (credits + cash), isDebit)
  {
    hide Side;
    SideOfConcat(targets + credits + written, cash, isDebit);
    SideOfConcat(targets + credits, written, isDebit);
    SideOfConcat(targets, credits, isDebit);
    SideOfConcat(targets + written, credits + cash, isDebit);
    SideOfConcat(targets, written, isDebit);
    SideOfConcat(credits, cash, isDebit);
    var t, x, w, k := Side(targets, isDebit), Side(credits, isDebit), Side(written, isDebit), Side(cash, isDebit);
    assert t + x + w + k == (t + w) + (x + k);
  }

  /** The order in which the legs are listed does not matter beyond the order on each side. */
  lemma SameSides(c: Chart, u: State, targets: seq<Leg>, credits: seq<Leg>, written: seq<Leg>, cash: seq<Leg>, docs: seq<MoveId>)
    requires AllFace(written, true) && AllFace(credits, false)
    ensures Settle(c, u, targets + credits + written + cash, docs) == Settle(c, u, (targets + written) + (credits + cash), docs)
  {
    SideOfAligned(written, true);
    SideOfAligned(credits, false);
    SideReordered(targets, credits, written, cash, true);
    SideReordered(targets, credits, written, cash, false);
    hide Side, AllFace, Matching, RefreshAll;
  }

  /**
   From `s` to `t`, where the difference stands on the side of the targets: it is one more target, after
   all the others, and funds nothing.
   */
  ghost predicate DifferenceIsTarget(c: Chart, s: State, t: State, targets: seq<Leg>, credits: seq<Leg>, difference: int, cash: int, p: MoveId) {
    && (forall i: nat :: i < |targets| ==>
          OpenAmount(c, t, targets[i].doc) ==
          OpenAmount(c, s, targets[i].doc) - Taken(SlotsOf(targets), i, TotalOf(credits) + cash))
    && OpenAmount(c, t, |s.moves|) == difference - Clamp(TotalOf(credits) + cash - TotalOf(targets), difference)
    && (forall k: nat :: k < |credits| ==>
          OpenAmount(c, t, credits[k].doc) ==
          OpenAmount(c, s, credits[k].doc) - Taken(SlotsOf(credits), k, TotalOf(targets) + difference))
    && (cash > 0 ==> OpenAmount(c, t, p) == cash - Clamp(TotalOf(targets) + difference - TotalOf(credits), cash))
  }

  lemma FundingWithDifference(c: Chart, s: State, u: State, targets: seq<Leg>, credits: seq<Leg>, written: Leg, cash: seq<Leg>,
                              side: bool, docs: seq<MoveId>, p: MoveId)
    requires Longer(s, u) && LegsOk(c, s, targets + credits) && LegsOk(c, u, (targets + [written]) + (credits + cash))
    requires AllFace(targets + [written], side) && AllFace(credits + cash, !side)
    requires written.doc == |s.moves| && written.slot.amount == OpenAmount(c, u, written.doc) > 0
    requires |cash| <= 1 && (forall l :: l in cash ==> l.doc == p && l.slot.amount == OpenAmount(c, u, p) > 0)
    ensures DifferenceIsTarget(c, s, Settle(c, u, (targets + [written]) + (credits + cash), docs), targets, credits,
                               written.slot.amount, TotalOf(cash), p)
  {
    hide LegsOk, Settle, Taken, Total, OpenAmount, Longer, AllFace;
    var asked, funds := targets + [written], credits + cash;
    var t := Settle(c, u, asked + funds, docs);
    FundedInOrder(c, u, asked, funds, side, docs);
    SlotsOfConcat(targets, [written]);
    SlotsOfConcat(credits, cash);
    TotalOfConcat(SlotsOf(targets), SlotsOf([written]));
    TotalOfConcat(SlotsOf(credits), SlotsOf(cash));
    TotalOfFew([written]);
    forall i: nat | i < |targets|
      ensures OpenAmount(c, t, targets[i].doc) == OpenAmount(c, s, targets[i].doc) - Taken(SlotsOf(targets), i, TotalOf(credits) + TotalOf(cash))
    {
      assert asked[i] == targets[i] == (targets + credits)[i];
      LegAt(c, s, targets + credits, i);
      SameOpen(c, s, u, targets[i].doc);
      TakenOfPrefix(SlotsOf(targets), SlotsOf([written]), i, TotalOf(credits) + TotalOf(cash));
    }
    assert asked[|targets|] == written;
    LastFund(targets, written, TotalOf(credits) + TotalOf(cash));
    forall k: nat | k < |credits|
      ensures OpenAmount(c, t, credits[k].doc) ==
              OpenAmount(c, s, credits[k].doc) - Taken(SlotsOf(credits), k, TotalOf(targets) + written.slot.amount)
    {
      assert funds[k] == credits[k] == (targets + credits)[|targets| + k];
      LegAt(c, s, targets + credits, |targets| + k);
      SameOpen(c, s, u, credits[k].doc);
      TakenOfPrefix(SlotsOf(credits), SlotsOf(cash), k, TotalOf(targets) + written.slot.amount);
    }
    TotalOfFew(cash);
    if |cash| == 1 {
      assert cash[0] in cash && cash == [cash[0]];
      assert funds[|credits|] == cash[0];
      LastFund(credits, cash[0], TotalOf(targets) + written.slot.amount);
    }
  }

  /** The tables and the legs once difference and cash are posted. */
  lemma FundsInTurn(c: Chart, s: State, h: Header, amount: int, w: Option<WriteOff>, counterpart: AccountId)
    requires Inv(c, s) && FundsApart(c) && c.Reconcilable(counterpart)
    requires PostWriteOff(c, s, h, w, counterpart).result.Ok? && PostCash(c, PostWriteOff(c, s, h, w, counterpart).db, h, amount).result.Ok?
    ensures var written := PostWriteOff(c, s, h, w, counterpart);
            var cash := PostCash(c, written.db, h, amount);
            && InTurn(c, s, written.db, cash.db, written.result.value, cash.result.value)
            && AllFace(written.result.value, if WriteOffFunds(c, h, w) then !h.inbound else h.inbound)
            && AllFace(cash.result.value, !h.inbound)
            && (forall l :: l in written.result.value ==> l.doc == |s.moves| && l.slot.amount == OpenAmount(c, cash.db, l.doc) == Written(w) > 0)
  {
    hide InvExcept, PostCash, PostWriteOff, FundsApart, LegsOk, TotalOf, Longer, AllFace, Guarded, Extends, OpenAmount, WriteOffFunds;
    var written := PostWriteOff(c, s, h, w, counterpart);
    PostWriteOffEffect(c, s, h, w, counterpart);
    WrittenTotal(c, s, h, w, counterpart);
    WriteOffFaces(c, s, h, w, counterpart);
    var cash := PostCash(c, written.db, h, amount);
    PostCashEffect(c, written.db, h, amount);
    CashLegIsWhole(c, written.db, h, amount);
    PostedCashFaces(c, written.db, h, amount);
    forall l | l in written.result.value
      ensures l.doc == |s.moves| < |written.db.moves| && l.slot.amount == OpenAmount(c, cash.db, l.doc) == Written(w) > 0
    {
      LegsBelow(c, written.db, written.result.value);
      SameOpen(c, written.db, cash.db, l.doc);
    }
  }

  lemma SettleWithFundsFunded(c: Chart, s: State, h: Header, amount: int, legs: seq<Leg>, w: Option<WriteOff>, counterpart: AccountId)
    requires Inv(c, s) && FundsApart(c) && LegsOk(c, s, legs) && c.Reconcilable(counterpart)
    requires SettleWithFunds(c, s, h, amount, legs, w, counterpart).result.Ok?
    ensures SettlementFunded(c, s, h, amount, legs, w, SettleWithFunds(c, s, h, amount, legs, w, counterpart))
  {
    hide InvExcept, PostCash, PostWriteOff, FundsApart, LegsOk, Settle, Funded, DifferenceIsTarget, TotalOf, AllFace, Facing, InTurn,
         Longer, OpenAmount, WriteOffFunds;
    var written := PostWriteOff(c, s, h, w, counterpart);
    var cash := PostCash(c, written.db, h, amount);
    WrittenTotal(c, s, h, w, counterpart);
    PostWriteOffEffect(c, s, h, w, counterpart);
    CashLegIsWhole(c, written.db, h, amount);
    FundsInTurn(c, s, h, amount, w, counterpart);
    LegsInTurn(c, s, written.db, cash.db, legs, h.inbound, written.result.value, cash.result.value);
    LongerChain(s, written.db, cash.db);
    var targets, credits, docs := Facing(legs, h.inbound), Facing(legs, !h.inbound), DocsOf(legs) + DocsOf(cash.result.value);
    if WriteOffFunds(c, h, w) {
      assert targets + credits + written.result.value + cash.result.value ==
             targets + (credits + written.result.value + cash.result.value);
      ConcatFaces(credits, written.result.value, !h.inbound);
      ConcatFaces(credits + written.result.value, cash.result.value, !h.inbound);
      FundingOfAll(c, s, cash.db, targets, credits, written.result.value, cash.result.value, h.inbound, docs, |written.db.moves|);
    } else {
      OnlyReceipts(c, h, w);
      assert written.result.value[0] in written.result.value && written.result.value == [written.result.value[0]];
      SameSides(c, cash.db, targets, credits, written.result.value, cash.result.value, docs);
      ConcatFaces(targets, written.result.value, h.inbound);
      ConcatFaces(credits, cash.result.value, !h.inbound);
      FundingWithDifference(c, s, cash.db, targets, credits, written.result.value[0], cash.result.value, h.inbound, docs, |written.db.moves|);
    }
  }

  lemma OnlyReceipts(c: Chart, h: Header, w: Option<WriteOff>)
    ensures !WriteOffFunds(c, h, w) ==> h.inbound && Written(w) > 0
  {
  }

  /** What a settlement with write-off and cash leaves, and which payment it answers. */
  ghost predicate SettlementFunded(c: Chart, s: State, h: Header, amount: int, legs: seq<Leg>, w: Option<WriteOff>, r: Reply<Option<MoveId>>) {
    var p := |s.moves| + (if Written(w) > 0 then 1 else 0);
    var targets, credits := Facing(legs, h.inbound), Facing(legs, !h.inbound);
    && (if WriteOffFunds(c, h, w) then Funded(c, s, r.db, targets, credits, Written(w), Max(0, amount), p)
        else DifferenceIsTarget(c, s, r.db, targets, credits, Written(w), Max(0, amount), p))
    && r.result == Ok(if amount > 0 then Some(p) else None)
  }

  /**
   `post_settlement`: credits, then the write-off, then the cash fund the allocated targets in list
   order. The advance left on the payment is the cash less what the targets need beyond credits and
   write-off, limited to the range from nothing to the whole cash. On a receipt whose write-off account
   is itself a receivable or payable the difference is not a fund but the last target.
   */
  lemma PostSettlementFundsInOrder(c: Chart, s: State, h: Header, amount: int, allocations: seq<Allocation>, w: Option<WriteOff>)
    requires Inv(c, s) && AllocationsOk(s, allocations) && FundsApart(c)
    requires PostSettlement(c, s, h, amount, allocations, w).result.Ok?
    ensures Legs(c, s, allocations).Ok?
    ensures SettlementFunded(c, s, h, amount, Legs(c, s, allocations).value, w, PostSettlement(c, s, h, amount, allocations, w))
  {
    hide InvExcept, Legs, LegsOk, SettleWithFunds, Funded, Facing, SettlementFunded;
    LegsAreOk(c, s, allocations);
    var counterpart := c.PartnerAccount(Some(h.partner), if h.inbound then Receivable else Payable);
    SettleWithFundsFunded(c, s, h, amount, Legs(c, s, allocations).value, w, counterpart.value);
  }

  // ─── What the order means ───────────────────────────────────────────

  lemma LegsArePositive(c: Chart, s: State, legs: seq<Leg>)
    requires LegsOk(c, s, legs)
    ensures NonNegative(SlotsOf(legs))
  {
    forall i | 0 <= i < |legs| ensures SlotsOf(legs)[i].amount >= 0 {
      assert LegOk(c, s, legs[i]);
    }
  }

  /** A credit keeps part of its offer only when the targets needed no cash at all. */
  lemma CreditLeftMeansCashUnapplied(c: Chart, s: State, t: State, targets: seq<Leg>, credits: seq<Leg>,
                                     writeOff: int, cash: int, p: MoveId, k: nat)
    requires Funded(c, s, t, targets, credits, writeOff, cash, p) && LegsOk(c, s, credits)
    requires writeOff >= 0 && cash > 0 && k < |credits|
    requires OpenAmount(c, t, credits[k].doc) > OpenAmount(c, s, credits[k].doc) - credits[k].slot.amount
    ensures OpenAmount(c, t, p) == cash
  {
    hide OpenAmount, LegsOk, Total;
    LegsArePositive(c, s, credits);
    if TotalOf(credits) <= TotalOf(targets) {
      TakenInFull(SlotsOf(credits), k, TotalOf(targets));
    }
  }

  /** A target receives anything only after every target before it has received all it asked for. */
  lemma EarlierTargetsFirst(c: Chart, s: State, t: State, targets: seq<Leg>, credits: seq<Leg>,
                            writeOff: int, cash: int, p: MoveId, i: nat, k: nat)
    requires Funded(c, s, t, targets, credits, writeOff, cash, p) && LegsOk(c, s, targets)
    requires i < k < |targets| && TotalOf(credits) + writeOff + cash >= 0
    requires OpenAmount(c, t, targets[k].doc) < OpenAmount(c, s, targets[k].doc)
    ensures OpenAmount(c, t, targets[i].doc) == OpenAmount(c, s, targets[i].doc) - targets[i].slot.amount
  {
    hide OpenAmount, LegsOk, Total, Taken;
    LegsArePositive(c, s, targets);
    TakenInOrder(SlotsOf(targets), i, k, TotalOf(credits) + writeOff + cash);
  }
}
