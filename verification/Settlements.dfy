/** The three settlement services (`documents.rs`): collect the legs, post cash and write-off, match, refresh. */
module Settlements {
  import opened Wrappers
  import opened Ledger
  import opened Tables
  import opened ServiceModel
  import opened CurrencyModel
  import opened DocumentsModel
  import opened Pools
  import opened SettlementModel
  import opened Invariant
  import opened SettlementsKeep
  import opened SettlementEffects
  import Service
  import Documents
  import Payments
  import Matcher

  // ─── Collecting legs ────────────────────────────────────────────────

  ghost predicate Positive(legs: seq<Leg>) {
    forall i :: 0 <= i < |legs| ==> legs[i].slot.amount > 0
  }

  lemma LegsStep(c: Chart, s: State, allocations: seq<Allocation>, i: nat)
    requires i < |allocations|
    ensures allocations[..i + 1][..i] == allocations[..i] && allocations[..i + 1][i] == allocations[i]
  {
  }

  /** An error met on the way is the error of the whole list. */
  lemma {:induction false} LegsErr(c: Chart, s: State, allocations: seq<Allocation>, i: nat)
    requires i <= |allocations| && Legs(c, s, allocations[..i]).Err?
    ensures Legs(c, s, allocations) == Legs(c, s, allocations[..i])
    decreases |allocations| - i
  {
    if i == |allocations| {
      assert allocations[..i] == allocations;
    } else {
      LegsStep(c, s, allocations, i);
      LegsErr(c, s, allocations, i + 1);
    }
  }

  method CollectLegs(db: Database, allocations: seq<Allocation>) returns (r: Result<seq<Leg>>)
    ensures r == Legs(db.chart, db.View(), allocations)
    ensures r.Ok? ==> Positive(r.value)
  {
    hide OpenOf;
    var legs: seq<Leg> := [];
    for i := 0 to |allocations|
      invariant Legs(db.chart, db.View(), allocations[..i]) == Ok(legs) && Positive(legs)
    {
      LegsStep(db.chart, db.View(), allocations, i);
      var a := allocations[i];
      if a.amount <= 0 {
        continue;
      }
      if a.doc >= |db.moves| {
        LegsErr(db.chart, db.View(), allocations, i + 1);
        return Err(NotFound);
      }
      if db.moves[a.doc].rate.Some? {
        LegsErr(db.chart, db.View(), allocations, i + 1);
        return Err(ForeignCurrency);
      }
      var open := OpenOf(db.chart, db.recs, a.doc, db.moves[a.doc]);
      if open.None? || open.value.amount <= 0 {
        continue;
      }
      legs := legs + [Leg(a.doc, Slot(open.value.line, Min(a.amount, open.value.amount)), open.value.isDebit)];
    }
    assert allocations[..|allocations|] == allocations;
    return Ok(legs);
  }

  lemma {:induction false} PickedErr(c: Chart, s: State, picked: seq<MoveId>, i: nat)
    requires i <= |picked| && Picked(c, s, picked[..i]).Err?
    ensures Picked(c, s, picked) == Picked(c, s, picked[..i])
    decreases |picked| - i
  {
    if i == |picked| {
      assert picked[..i] == picked;
    } else {
      assert picked[..i + 1][..i] == picked[..i];
      PickedErr(c, s, picked, i + 1);
    }
  }

  /** The picked documents, split as they come into targets and credits. */
  method CollectPicked(db: Database, inbound: bool, picked: seq<MoveId>) returns (r: Result<()>, targets: seq<Leg>, credits: seq<Leg>)
    ensures if Picked(db.chart, db.View(), picked).Err? then r == Err(Picked(db.chart, db.View(), picked).error)
            else r == Ok(()) && targets == Facing(Picked(db.chart, db.View(), picked).value, inbound) &&
                 credits == Facing(Picked(db.chart, db.View(), picked).value, !inbound)
  {
    hide OpenOf;
    targets, credits := [], [];
    ghost var legs: seq<Leg> := [];
    for i := 0 to |picked|
      invariant Picked(db.chart, db.View(), picked[..i]) == Ok(legs)
      invariant targets == Facing(legs, inbound) && credits == Facing(legs, !inbound)
    {
      assert picked[..i + 1][..i] == picked[..i];
      var id := picked[i];
      if id >= |db.moves| {
        continue;
      }
      if db.moves[id].rate.Some? {
        PickedErr(db.chart, db.View(), picked, i + 1);
        return Err(ForeignCurrency), [], [];
      }
      var open := OpenOf(db.chart, db.recs, id, db.moves[id]);
      if open.None? || open.value.amount <= 0 {
        continue;
      }
      var item := Leg(id, Slot(open.value.line, open.value.amount), open.value.isDebit);
      FacingOneMore(legs, item, inbound);
      FacingOneMore(legs, item, !inbound);
      legs := legs + [item];
      if item.isDebit == inbound {
        targets := targets + [item];
      } else {
        credits := credits + [item];
      }
    }
    assert picked[..|picked|] == picked;
    r := Ok(());
  }

  lemma FacingOneMore(legs: seq<Leg>, l: Leg, side: bool)
    ensures Facing(legs + [l], side) == Facing(legs, side) + if l.isDebit == side then [l] else []
  {
    assert (legs + [l])[..|legs|] == legs;
  }

  // ─── Matching and refreshing ────────────────────────────────────────

  method PoolsOf(legs: seq<Leg>) returns (debits: seq<Slot>, credits: seq<Slot>)
    ensures debits == Side(legs, true) && credits == Side(legs, false)
  {
    debits, credits := [], [];
    for i := 0 to |legs|
      invariant debits == Side(legs[..i], true) && credits == Side(legs[..i], false)
    {
      assert legs[..i + 1][..i] == legs[..i];
      if legs[i].isDebit {
        debits := debits + [legs[i].slot];
      } else {
        credits := credits + [legs[i].slot];
      }
    }
    assert legs[..|legs|] == legs;
  }

  lemma {:induction false} SideOfPositive(legs: seq<Leg>, side: bool)
    requires Positive(legs)
    ensures NonNegative(Side(legs, side))
  {
    if legs != [] {
      SideOfPositive(legs[..|legs| - 1], side);
    }
  }

  /** The end of every settlement: match the two pools in place, then recompute the documents. */
  method SettleInPlace(db: Database, legs: seq<Leg>, docs: seq<MoveId>)
    requires Positive(legs)
    modifies db`moves, db`recs
    ensures db.View() == Settle(db.chart, old(db.View()), legs, docs)
  {
    SideOfPositive(legs, true);
    SideOfPositive(legs, false);
    var ds, cs := PoolsOf(legs);
    var debits := new Slot[|ds|](k requires 0 <= k < |ds| => ds[k]);
    var credits := new Slot[|cs|](k requires 0 <= k < |cs| => cs[k]);
    assert debits[..] == ds && credits[..] == cs;
    Matcher.MatchPools(db, debits, credits);
    Documents.RefreshEach(db, docs);
  }

  /** Posts cash without allocations and returns its open counterpart line. */
  method PostCashLine(db: Database, h: Header, amount: int) returns (r: Result<MoveId>, leg: Option<Leg>)
    modifies db`moves, db`recs, db`nextNumber
    ensures Reply(db.View(), r) == RegisterPayment(db.chart, old(db.View()), CashOf(h, amount))
    ensures leg == if r.Ok? then LegOf(db.chart, db.View(), r.value, None) else None
  {
    r := Payments.RegisterPayment(db, CashOf(h, amount));
    leg := None;
    if r.Ok? {
      leg := OpenLegOf(db, r.value);
    }
  }

  method OpenLegOf(db: Database, id: MoveId) returns (leg: Option<Leg>)
    ensures leg == LegOf(db.chart, db.View(), id, None)
  {
    if id >= |db.moves| {
      return None;
    }
    var open := OpenOf(db.chart, db.recs, id, db.moves[id]);
    if open.None? {
      return None;
    }
    return Some(Leg(id, Slot(open.value.line, open.value.amount), open.value.isDebit));
  }

  // ─── settle_documents ───────────────────────────────────────────────

  lemma SideTotalStep(legs: seq<Leg>, i: nat, side: bool)
    requires i < |legs|
    ensures Total(Side(legs[..i + 1], side)) == Total(Side(legs[..i], side)) + if legs[i].isDebit == side then legs[i].slot.amount else 0
  {
    assert legs[..i + 1] == legs[..i] + [legs[i]];
    SideOfOneMore(legs[..i], legs[i], side);
  }

  method SumSides(legs: seq<Leg>, inbound: bool) returns (targets: int, offsets: int)
    ensures targets == Total(Side(legs, inbound)) && offsets == Total(Side(legs, !inbound))
  {
    targets, offsets := 0, 0;
    for i := 0 to |legs|
      invariant targets == Total(Side(legs[..i], inbound)) && offsets == Total(Side(legs[..i], !inbound))
    {
      SideTotalStep(legs, i, inbound);
      SideTotalStep(legs, i, !inbound);
      if legs[i].isDebit == inbound {
        targets := targets + legs[i].slot.amount;
      } else {
        offsets := offsets + legs[i].slot.amount;
      }
    }
    assert legs[..|legs|] == legs;
  }

  method SettleCollected(db: Database, h: Header, legs: seq<Leg>) returns (r: Result<Option<MoveId>>)
    requires Positive(legs)
    modifies db`moves, db`recs, db`nextNumber
    ensures Reply(db.View(), r) == SettleLegs(db.chart, old(db.View()), h, legs)
  {
    hide Settle, Side, Total, RegisterPayment, CashOf, OpenOf;
    if legs == [] {
      return Err(NothingToSettle);
    }
    var targets, offsets := SumSides(legs, h.inbound);
    if targets <= 0 {
      return Err(NoTarget);
    }
    var net := targets - offsets;
    if net < 0 {
      return Err(CreditsExceedTargets);
    }
    if net == 0 {
      SettleInPlace(db, legs, DocsOf(legs));
      return Ok(None);
    }
    var paid, leg := PostCashLine(db, h, net);
    if paid.Err? {
      return Err(paid.error);
    }
    if leg.None? {
      return Err(NoReconcilableLine);
    }
    var cash := leg.value.(slot := leg.value.slot.(amount := net));
    SettleInPlace(db, legs + [cash], DocsOf(legs + [cash]));
    return Ok(Some(paid.value));
  }

  method SettleDocuments(db: Database, h: Header, allocations: seq<Allocation>) returns (r: Result<Option<MoveId>>)
    modifies db`moves, db`recs, db`nextNumber
    ensures Reply(db.View(), r) == SettlementModel.SettleDocuments(db.chart, old(db.View()), h, allocations)
  {
    hide SettleLegs;
    var legs := CollectLegs(db, allocations);
    if legs.Err? {
      return Err(legs.error);
    }
    r := SettleCollected(db, h, legs.value);
  }

  // ─── apply_payment ──────────────────────────────────────────────────

  lemma LegsArePositive(c: Chart, s: State, legs: seq<Leg>)
    requires LegsOk(c, s, legs)
    ensures Positive(legs)
  {
    forall i | 0 <= i < |legs| ensures legs[i].slot.amount > 0 {
      assert LegOk(c, s, legs[i]);
    }
  }

  lemma {:induction false} FacingIsPositive(legs: seq<Leg>, side: bool)
    requires Positive(legs)
    ensures Positive(Facing(legs, side))
  {
    if legs != [] {
      FacingIsPositive(legs[..|legs| - 1], side);
    }
  }

  lemma {:induction false} InsertIsPositive(s: State, sorted: seq<Leg>, l: Leg)
    requires Positive(sorted) && l.slot.amount > 0
    ensures Positive(InsertByDate(s, sorted, l))
  {
    if !(sorted == [] || Earlier(s, sorted[|sorted| - 1], l)) {
      InsertIsPositive(s, sorted[..|sorted| - 1], l);
    }
  }

  lemma {:induction false} SortIsPositive(s: State, legs: seq<Leg>)
    requires Positive(legs)
    ensures Positive(SortByDate(s, legs))
  {
    if legs != [] {
      SortIsPositive(s, legs[..|legs| - 1]);
      InsertIsPositive(s, SortByDate(s, legs[..|legs| - 1]), legs[|legs| - 1]);
    }
  }

  lemma {:induction false} PickedIsPositive(c: Chart, s: State, picked: seq<MoveId>)
    requires Picked(c, s, picked).Ok?
    ensures Positive(Picked(c, s, picked).value)
  {
    if picked != [] {
      PickedIsPositive(c, s, picked[..|picked| - 1]);
    }
  }

  /** The cash, if any. */
  method PostCash(db: Database, h: Header, amount: int) returns (r: Result<seq<Leg>>)
    modifies db`moves, db`recs, db`nextNumber
    ensures Reply(db.View(), r) == SettlementModel.PostCash(db.chart, old(db.View()), h, amount)
  {
    hide RegisterPayment, CashOf, OpenOf;
    if amount <= 0 {
      return Ok([]);
    }
    var paid, leg := PostCashLine(db, h, amount);
    if paid.Err? {
      return Err(paid.error);
    }
    if leg.None? {
      return Err(NoReconcilableLine);
    }
    return Ok([leg.value]);
  }

  method ApplyInOrder(db: Database, h: Header, amount: int, targets: seq<Leg>, credits: seq<Leg>) returns (r: Result<Option<MoveId>>)
    requires Inv(db.chart, db.View()) && Positive(targets) && Positive(credits)
    modifies db`moves, db`recs, db`nextNumber
    ensures Reply(db.View(), r) == ApplyLegs(db.chart, old(db.View()), h, amount, targets, credits)
  {
    hide SettlementModel.PostCash, Inv, LegsOk, Settle;
    if amount <= 0 && credits == [] {
      return Err(NothingReceived);
    }
    PostCashEffect(db.chart, db.View(), h, amount);
    var cash := PostCash(db, h, amount);
    if cash.Err? {
      return Err(cash.error);
    }
    LegsArePositive(db.chart, db.View(), cash.value);
    var all := targets + credits + cash.value;
    SettleInPlace(db, all, DocsOf(all));
    return Ok(PaymentOf(cash.value));
  }

  method ApplyPayment(db: Database, h: Header, amount: int, picked: seq<MoveId>) returns (r: Result<Option<MoveId>>)
    requires Inv(db.chart, db.View())
    modifies db`moves, db`recs, db`nextNumber
    ensures Reply(db.View(), r) == SettlementModel.ApplyPayment(db.chart, old(db.View()), h, amount, picked)
  {
    hide Inv, ApplyLegs, Picked, Facing, SortByDate, Positive;
    var collected, targets, credits := CollectPicked(db, h.inbound, picked);
    if collected.Err? {
      return Err(collected.error);
    }
    PickedIsPositive(db.chart, db.View(), picked);
    FacingIsPositive(Picked(db.chart, db.View(), picked).value, h.inbound);
    FacingIsPositive(Picked(db.chart, db.View(), picked).value, !h.inbound);
    SortIsPositive(db.View(), targets);
    SortIsPositive(db.View(), credits);
    r := ApplyInOrder(db, h, amount, SortByDate(db.View(), targets), SortByDate(db.View(), credits));
  }

  // ─── post_settlement ────────────────────────────────────────────────

  /** The legs on one side, in list order. */
  method OnSide(legs: seq<Leg>, side: bool) returns (out: seq<Leg>)
    ensures out == Facing(legs, side)
  {
    out := [];
    for i := 0 to |legs|
      invariant out == Facing(legs[..i], side)
    {
      assert legs[..i + 1][..i] == legs[..i];
      if legs[i].isDebit == side {
        out := out + [legs[i]];
      }
    }
    assert legs[..|legs|] == legs;
  }

  /** The difference entry, if any. */
  method PostWriteOff(db: Database, h: Header, w: Option<WriteOff>, counterpart: AccountId) returns (r: Result<seq<Leg>>)
    modifies db`moves, db`nextNumber
    ensures Reply(db.View(), r) == SettlementModel.PostWriteOff(db.chart, old(db.View()), h, w, counterpart)
  {
    hide CreateAndPost, OpenOf;
    if w.None? || w.value.amount <= 0 {
      return Ok([]);
    }
    var posted := Service.CreateAndPost(db, WriteOffMove(h, w.value, counterpart));
    if posted.Err? {
      return Err(posted.error);
    }
    var leg := OpenLegOf(db, posted.value);
    if leg.None? {
      return Err(NoReconcilableLine);
    }
    return Ok([leg.value]);
  }

  method SettleFunded(db: Database, h: Header, amount: int, legs: seq<Leg>, w: Option<WriteOff>, counterpart: AccountId)
    returns (r: Result<Option<MoveId>>)
    requires Inv(db.chart, db.View()) && Positive(legs)
    modifies db`moves, db`recs, db`nextNumber
    ensures Reply(db.View(), r) == SettleWithFunds(db.chart, old(db.View()), h, amount, legs, w, counterpart)
  {
    hide InvExcept, LegsOk, Settle, SettlementModel.PostCash, SettlementModel.PostWriteOff, Facing;
    ghost var s := db.View();
    var targets := OnSide(legs, h.inbound);
    var credits := OnSide(legs, !h.inbound);
    FacingIsPositive(legs, h.inbound);
    FacingIsPositive(legs, !h.inbound);
    PostWriteOffEffect(db.chart, s, h, w, counterpart);
    var written := PostWriteOff(db, h, w, counterpart);
    if written.Err? {
      return Err(written.error);
    }
    LegsArePositive(db.chart, db.View(), written.value);
    PostCashEffect(db.chart, db.View(), h, amount);
    var cash := PostCash(db, h, amount);
    if cash.Err? {
      return Err(cash.error);
    }
    LegsArePositive(db.chart, db.View(), cash.value);
    SettleInPlace(db, targets + credits + written.value + cash.value, DocsOf(legs) + DocsOf(cash.value));
    return Ok(PaymentOf(cash.value));
  }

  method PostSettlement(db: Database, h: Header, amount: int, allocations: seq<Allocation>, w: Option<WriteOff>)
    returns (r: Result<Option<MoveId>>)
    requires Inv(db.chart, db.View())
    modifies db`moves, db`recs, db`nextNumber
    ensures Reply(db.View(), r) == SettlementModel.PostSettlement(db.chart, old(db.View()), h, amount, allocations, w)
  {
    hide Inv, Legs, SettleWithFunds;
    var legs := CollectLegs(db, allocations);
    if legs.Err? {
      return Err(legs.error);
    }
    if legs.value == [] && amount <= 0 {
      return Err(NothingReceived);
    }
    var counterpart := db.chart.PartnerAccount(Some(h.partner), if h.inbound then Receivable else Payable);
    if counterpart.None? {
      return Err(NoAccount);
    }
    r := SettleFunded(db, h, amount, legs.value, w, counterpart.value);
  }
}
