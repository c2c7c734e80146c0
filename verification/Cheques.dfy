/** Post-dated cheques: the holding accounts always carry exactly the cheques in hand. */
module Cheques {
  import opened Wrappers
  import opened Ledger
  import opened ServiceModel
  import opened DocumentsModel
  import opened BankingModel
  import opened Invariant
  import opened Periods
  import opened PostingKeeps
  import opened PaymentsKeep
  import opened YearEnd

  /** 1150 and 2150 are two accounts of their own, neither banks nor receivables or payables. */
  ghost predicate ChequeAccountsOk(c: Chart, a: PdcAccounts) {
    && PdcAccountsOf(c) == Some(a) && c.ControlAccountsOk()
    && c.accounts[a.received].kind == AssetCurrent && c.accounts[a.issued].kind == LiabilityCurrent
  }

  /** Σ of the face values in hand, one direction. */
  function InHand(cheques: seq<Pdc>, received: bool): int {
    if cheques == [] then 0
    else
      var p := cheques[|cheques| - 1];
      InHand(cheques[..|cheques| - 1], received) + if p.state.Holding? && p.received == received then p.amount else 0
  }

  lemma {:induction false} InHandOfUpdate(cheques: seq<Pdc>, i: nat, p: Pdc, received: bool)
    requires i < |cheques|
    ensures InHand(cheques[i := p], received) ==
            InHand(cheques, received) - (if cheques[i].state.Holding? && cheques[i].received == received then cheques[i].amount else 0) +
            (if p.state.Holding? && p.received == received then p.amount else 0)
  {
    var n := |cheques| - 1;
    if i == n {
      assert cheques[i := p][..n] == cheques[..n];
    } else {
      assert cheques[i := p][..n] == cheques[..n][i := p];
      InHandOfUpdate(cheques[..n], i, p, received);
    }
  }

  const ALL_TIME: Window := Window(None, None)

  /** The entry behind a cheque: what it put on the two holding accounts. */
  ghost predicate HeldEntry(s: State, a: PdcAccounts, p: Pdc) {
    && p.amount > 0 && p.holding < |s.moves|
    && var m := s.moves[p.holding];
       && Net(m.lines, {a.received}) == (if p.received then p.amount else 0)
       && Net(m.lines, {a.issued}) == (if p.received then 0 else -p.amount)
  }

  /** Sound books, an entry for every cheque, and the two holding accounts carrying what is in hand. */
  ghost predicate DeskOk(c: Chart, a: PdcAccounts, d: Desk) {
    && Inv(c, d.db)
    && (forall k :: 0 <= k < |d.cheques| ==> HeldEntry(d.db, a, d.cheques[k]))
    && Balance(d.db.moves, {a.received}, ALL_TIME) == InHand(d.cheques, true)
    && Balance(d.db.moves, {a.issued}, ALL_TIME) == -InHand(d.cheques, false)
  }

  /** A step of someone else: it keeps the books and the cheque entries, and leaves 1150 and 2150 alone. */
  ghost predicate Undisturbed(c: Chart, a: PdcAccounts, d: Desk, s: State) {
    && Inv(c, s)
    && |d.db.moves| <= |s.moves|
    && (forall k :: 0 <= k < |d.cheques| && d.cheques[k].holding < |d.db.moves| ==>
          SameLines(d.db.moves[d.cheques[k].holding].lines, s.moves[d.cheques[k].holding].lines))
    && Balance(s.moves, {a.received}, ALL_TIME) == Balance(d.db.moves, {a.received}, ALL_TIME)
    && Balance(s.moves, {a.issued}, ALL_TIME) == Balance(d.db.moves, {a.issued}, ALL_TIME)
  }

  lemma EntriesStay(a: PdcAccounts, d: Desk, s: State, k: nat)
    requires k < |d.cheques| && HeldEntry(d.db, a, d.cheques[k]) && |d.db.moves| <= |s.moves|
    requires SameLines(d.db.moves[d.cheques[k].holding].lines, s.moves[d.cheques[k].holding].lines)
    ensures HeldEntry(s, a, d.cheques[k])
  {
    var x, y := d.db.moves[d.cheques[k].holding].lines, s.moves[d.cheques[k].holding].lines;
    SumsOfSameLines(x, y, {a.received});
    SumsOfSameLines(x, y, {a.issued});
  }

  lemma OthersKeepDesk(c: Chart, a: PdcAccounts, d: Desk, s: State)
    requires DeskOk(c, a, d) && Undisturbed(c, a, d, s)
    ensures DeskOk(c, a, d.(db := s))
  {
    hide HeldEntry, InvExcept, Balance;
    forall k | 0 <= k < |d.cheques| ensures HeldEntry(s, a, d.cheques[k]) {
      assert d.cheques[k].holding < |d.db.moves| by { assert HeldEntry(d.db, a, d.cheques[k]); HeldIsThere(d.db, a, d.cheques[k]); }
      EntriesStay(a, d, s, k);
    }
  }

  lemma HeldIsThere(s: State, a: PdcAccounts, p: Pdc)
    requires HeldEntry(s, a, p)
    ensures p.holding < |s.moves|
  {
  }

  /** A refused entry leaves the cheque desk as it was, up to a stray draft. */
  lemma RefusedKeepsDesk(c: Chart, a: PdcAccounts, d: Desk, entry: NewMove, lines: seq<Line>)
    requires DeskOk(c, a, d) && entry.kind.Entry? && entry.lines == FromSen(lines) && FreshLines(lines)
    requires CreateAndPost(c, d.db, entry).result.Err?
    ensures DeskOk(c, a, d.(db := CreateAndPost(c, d.db, entry).db))
  {
    var t := CreateAndPost(c, d.db, entry).db;
    CreateAndPostKeeps(c, d.db, entry, {});
    CreateAndPostEffect(c, d.db, entry, lines);
    hide InvExcept, CreateAndPost;
    if t != d.db {
      BalanceWithRow(d.db.moves, Blank(entry), {a.received}, ALL_TIME);
      BalanceWithRow(d.db.moves, Blank(entry), {a.issued}, ALL_TIME);
    }
    OthersKeepDesk(c, a, d, t);
  }

  /** A posted entry moves the two holding accounts by its lines and keeps the cheques' entries. */
  lemma PostedMovesDesk(c: Chart, a: PdcAccounts, d: Desk, entry: NewMove, lines: seq<Line>)
    requires DeskOk(c, a, d) && entry.kind.Entry? && entry.lines == FromSen(lines) && FreshLines(lines)
    requires CreateAndPost(c, d.db, entry).result.Ok?
    ensures var t := CreateAndPost(c, d.db, entry).db;
            && Inv(c, t) && (forall k :: 0 <= k < |d.cheques| ==> HeldEntry(t, a, d.cheques[k]))
            && |t.moves| == |d.db.moves| + 1 && t.moves[|d.db.moves|].lines == lines
            && CreateAndPost(c, d.db, entry).result.value == |d.db.moves|
            && Balance(t.moves, {a.received}, ALL_TIME) == Balance(d.db.moves, {a.received}, ALL_TIME) + Net(lines, {a.received})
            && Balance(t.moves, {a.issued}, ALL_TIME) == Balance(d.db.moves, {a.issued}, ALL_TIME) + Net(lines, {a.issued})
  {
    var t := CreateAndPost(c, d.db, entry).db;
    CreateAndPostKeeps(c, d.db, entry, {});
    CreateAndPostEffect(c, d.db, entry, lines);
    hide InvExcept, CreateAndPost, HeldEntry;
    var row := t.moves[|d.db.moves|];
    assert t.moves == d.db.moves + [row];
    BalanceWithRow(d.db.moves, row, {a.received}, ALL_TIME);
    BalanceWithRow(d.db.moves, row, {a.issued}, ALL_TIME);
    forall k | 0 <= k < |d.cheques| ensures HeldEntry(t, a, d.cheques[k]) {
      HeldIsThere(d.db, a, d.cheques[k]);
      EntriesStay(a, d, t, k);
    }
  }

  /** What a cheque in hand has put on the account of its direction. */
  function OnAccount(p: Pdc, received: bool): int {
    if p.received == received then p.amount else 0
  }

  lemma DeskWithCheque(c: Chart, a: PdcAccounts, d: Desk, t: State, p: Pdc)
    requires DeskOk(c, a, d) && Inv(c, t) && p.state.Holding?
    requires (forall k :: 0 <= k < |d.cheques| ==> HeldEntry(t, a, d.cheques[k])) && HeldEntry(t, a, p)
    requires Balance(t.moves, {a.received}, ALL_TIME) == Balance(d.db.moves, {a.received}, ALL_TIME) + OnAccount(p, true)
    requires Balance(t.moves, {a.issued}, ALL_TIME) == Balance(d.db.moves, {a.issued}, ALL_TIME) - OnAccount(p, false)
    ensures DeskOk(c, a, Desk(t, d.cheques + [p]))
  {
    hide HeldEntry, InvExcept, Balance, InHand;
    InHandOfOneMore(d.cheques, p, true);
    InHandOfOneMore(d.cheques, p, false);
  }

  lemma InHandWithout(cheques: seq<Pdc>, id: nat, gone: ChequeState, received: bool)
    requires id < |cheques| && cheques[id].state.Holding? && !gone.Holding?
    ensures InHand(cheques[id := cheques[id].(state := gone)], received) == InHand(cheques, received) - OnAccount(cheques[id], received)
  {
    hide InHand;
    InHandOfUpdate(cheques, id, cheques[id].(state := gone), received);
  }

  lemma DeskWithout(c: Chart, a: PdcAccounts, d: Desk, t: State, id: nat, gone: ChequeState)
    requires DeskOk(c, a, d) && Inv(c, t) && id < |d.cheques| && d.cheques[id].state.Holding? && !gone.Holding?
    requires forall k :: 0 <= k < |d.cheques| ==> HeldEntry(t, a, d.cheques[k])
    requires Balance(t.moves, {a.received}, ALL_TIME) == Balance(d.db.moves, {a.received}, ALL_TIME) - OnAccount(d.cheques[id], true)
    requires Balance(t.moves, {a.issued}, ALL_TIME) == Balance(d.db.moves, {a.issued}, ALL_TIME) + OnAccount(d.cheques[id], false)
    ensures DeskOk(c, a, Desk(t, d.cheques[id := d.cheques[id].(state := gone)]))
  {
    hide Inv, Balance, InHand, OnAccount;
    HeldWithout(a, d, t, id, gone);
    hide HeldEntry;
    InHandWithout(d.cheques, id, gone, true);
    InHandWithout(d.cheques, id, gone, false);
  }

  lemma HeldWithout(a: PdcAccounts, d: Desk, t: State, id: nat, gone: ChequeState)
    requires id < |d.cheques| && forall k :: 0 <= k < |d.cheques| ==> HeldEntry(t, a, d.cheques[k])
    ensures var left := d.cheques[id := d.cheques[id].(state := gone)];
            forall k :: 0 <= k < |left| ==> left[k].amount == d.cheques[k].amount && left[k].holding == d.cheques[k].holding && HeldEntry(t, a, left[k])
  {
    var left := d.cheques[id := d.cheques[id].(state := gone)];
    forall k | 0 <= k < |left|
      ensures left[k].amount == d.cheques[k].amount && left[k].holding == d.cheques[k].holding && HeldEntry(t, a, left[k])
    {
      assert HeldEntry(t, a, d.cheques[k]);
    }
  }

  lemma DeskFacts(c: Chart, a: PdcAccounts, d: Desk)
    requires DeskOk(c, a, d)
    ensures Inv(c, d.db)
    ensures forall k :: 0 <= k < |d.cheques| ==> d.cheques[k].amount > 0 && d.cheques[k].holding < |d.db.moves| && HeldEntry(d.db, a, d.cheques[k])
  {
  }

  lemma NewEntryHeld(c: Chart, a: PdcAccounts, t: State, p: Pdc, lines: seq<Line>)
    requires p.amount > 0 && p.holding < |t.moves| && t.moves[p.holding].lines == lines
    requires Net(lines, {a.received}) == OnAccount(p, true) && Net(lines, {a.issued}) == -OnAccount(p, false)
    ensures HeldEntry(t, a, p)
  {
  }

  lemma HoldingNets(c: Chart, a: PdcAccounts, partner: PartnerId, received: bool, amount: int)
    requires ChequeAccountsOk(c, a) && amount > 0
    requires c.PartnerAccount(Some(partner), if received then Receivable else Payable).Some?
    ensures var lines := HoldingLines(a, c.PartnerAccount(Some(partner), if received then Receivable else Payable).value, received, amount);
            && Net(lines, {a.received}) == (if received then amount else 0)
            && Net(lines, {a.issued}) == (if received then 0 else -amount)
            && FreshLines(lines)
  {
    var lines := HoldingLines(a, c.PartnerAccount(Some(partner), if received then Receivable else Payable).value, received, amount);
    SumsOfTwo(lines[0], lines[1], {a.received});
    SumsOfTwo(lines[0], lines[1], {a.issued});
    assert lines == [lines[0], lines[1]];
  }

  lemma RecordKeepsDesk(c: Chart, a: PdcAccounts, d: Desk, received: bool, partner: PartnerId, amount: int, maturity: Date, date: Date)
    requires DeskOk(c, a, d) && ChequeAccountsOk(c, a)
    ensures DeskOk(c, a, RecordPdc(c, d, received, partner, amount, maturity, date).desk)
  {
    hide DeskOk, CreateAndPost, ChequeAccountsOk, Balance, Net, PdcAccountsOf, Inv, HeldEntry;
    var counterpart := c.PartnerAccount(Some(partner), if received then Receivable else Payable);
    AccountsKnown(c, a);
    if amount > 0 && counterpart.Some? {
      HoldingNets(c, a, partner, received, amount);
      var lines := HoldingLines(a, counterpart.value, received, amount);
      var entry := NewMove("GEN", date, Entry, Some(partner), FromSen(lines));
      var posted := CreateAndPost(c, d.db, entry);
      if posted.result.Ok? {
        PostedMovesDesk(c, a, d, entry, lines);
        var p := Pdc(received, amount, maturity, |d.db.moves|, Holding);
        NewEntryHeld(c, a, posted.db, p, lines);
        DeskWithCheque(c, a, d, posted.db, p);
      } else {
        RefusedKeepsDesk(c, a, d, entry, lines);
      }
    }
  }

  lemma AccountsKnown(c: Chart, a: PdcAccounts)
    requires ChequeAccountsOk(c, a)
    ensures PdcAccountsOf(c) == Some(a)
  {
  }

  lemma InHandOfOneMore(cheques: seq<Pdc>, p: Pdc, received: bool)
    ensures InHand(cheques + [p], received) == InHand(cheques, received) + if p.state.Holding? && p.received == received then p.amount else 0
  {
    assert (cheques + [p])[..|cheques|] == cheques;
  }

  lemma ClearingNets(c: Chart, a: PdcAccounts, received: bool, amount: int)
    requires ChequeAccountsOk(c, a) && amount > 0 && c.FirstOfKind(AssetBank).Some?
    ensures var lines := ClearingLines(a, c.FirstOfKind(AssetBank).value, received, amount);
            && Net(lines, {a.received}) == (if received then -amount else 0)
            && Net(lines, {a.issued}) == (if received then 0 else amount)
            && FreshLines(lines)
  {
    var lines := ClearingLines(a, c.FirstOfKind(AssetBank).value, received, amount);
    SumsOfTwo(lines[0], lines[1], {a.received});
    SumsOfTwo(lines[0], lines[1], {a.issued});
    assert lines == [lines[0], lines[1]];
  }

  lemma ClearKeepsDesk(c: Chart, a: PdcAccounts, d: Desk, id: nat, date: Date)
    requires DeskOk(c, a, d) && ChequeAccountsOk(c, a)
    ensures DeskOk(c, a, ClearPdc(c, d, id, date).desk)
  {
    hide DeskOk, CreateAndPost, ChequeAccountsOk, Balance, Net, PdcAccountsOf, Inv, HeldEntry;
    AccountsKnown(c, a);
    if id < |d.cheques| && d.cheques[id].state.Holding? && c.FirstOfKind(AssetBank).Some? {
      var p := d.cheques[id];
      DeskFacts(c, a, d);
      ClearingNets(c, a, p.received, p.amount);
      var lines := ClearingLines(a, c.FirstOfKind(AssetBank).value, p.received, p.amount);
      var entry := NewMove("BNK", date, Entry, None, FromSen(lines));
      var posted := CreateAndPost(c, d.db, entry);
      if posted.result.Ok? {
        PostedMovesDesk(c, a, d, entry, lines);
        DeskWithout(c, a, d, posted.db, id, Cleared);
      } else {
        RefusedKeepsDesk(c, a, d, entry, lines);
      }
    }
  }

  lemma SameAmounts(x: seq<Line>, y: seq<Line>)
    requires x == y
    ensures SameLines(x, y)
  {
  }

  lemma EntriesSurviveReversal(c: Chart, a: PdcAccounts, d: Desk, id: MoveId, date: Date)
    requires DeskOk(c, a, d)
    ensures forall k :: 0 <= k < |d.cheques| ==> HeldEntry(ReverseMove(c, d.db, id, date).db, a, d.cheques[k])
  {
    var t := ReverseMove(c, d.db, id, date).db;
    DeskFacts(c, a, d);
    ReverseLeavesEntries(c, d.db, id, date);
    hide DeskOk, HeldEntry, ReverseMove, Inv;
    forall k | 0 <= k < |d.cheques| ensures HeldEntry(t, a, d.cheques[k]) {
      SameAmounts(d.db.moves[d.cheques[k].holding].lines, t.moves[d.cheques[k].holding].lines);
      EntriesStay(a, d, t, k);
    }
  }

  lemma BounceKeepsDesk(c: Chart, a: PdcAccounts, d: Desk, id: nat, date: Date)
    requires DeskOk(c, a, d)
    ensures DeskOk(c, a, BouncePdc(c, d, id, date).desk)
  {
    hide ReverseMove, Inv;
    if id < |d.cheques| && d.cheques[id].state.Holding? {
      var p := d.cheques[id];
      var r := ReverseMove(c, d.db, p.holding, date);
      ReversalInv(c, d.db, p.holding, date);
      EntriesSurviveReversal(c, a, d, p.holding, date);
      assert HeldEntry(d.db, a, p);
      if r.result.Ok? {
        ReversalCancels(c, d.db, p.holding, date, {a.received}, ALL_TIME);
        ReversalCancels(c, d.db, p.holding, date, {a.issued}, ALL_TIME);
        DeskWithout(c, a, d, r.db, id, Bounced);
      } else {
        RefusedReversal(c, d.db, p.holding, date, {a.received});
        RefusedReversal(c, d.db, p.holding, date, {a.issued});
      }
    }
  }

  lemma ReversalInv(c: Chart, s: State, id: MoveId, date: Date)
    requires Inv(c, s)
    ensures Inv(c, ReverseMove(c, s, id, date).db)
  {
    ReverseKeeps(c, s, id, date, {});
  }

  lemma ReverseLeavesEntries(c: Chart, s: State, id: MoveId, date: Date)
    requires Inv(c, s)
    ensures |s.moves| <= |ReverseMove(c, s, id, date).db.moves|
    ensures forall i :: 0 <= i < |s.moves| ==> ReverseMove(c, s, id, date).db.moves[i].lines == s.moves[i].lines
  {
    if id < |s.moves| && s.moves[id].stage.Posted? {
      PostedIsBalanced(c, s, {}, id);
      hide InvExcept;
      ReverseMoveEffect(c, s, id, date);
    }
  }

  lemma RefusedReversal(c: Chart, s: State, id: MoveId, date: Date, on: set<AccountId>)
    requires Inv(c, s) && ReverseMove(c, s, id, date).result.Err?
    ensures Balance(ReverseMove(c, s, id, date).db.moves, on, ALL_TIME) == Balance(s.moves, on, ALL_TIME)
  {
    if id < |s.moves| && s.moves[id].stage.Posted? {
      PostedIsBalanced(c, s, {}, id);
      hide InvExcept;
      ReverseMoveEffect(c, s, id, date);
      BalanceWithRow(s.moves, Blank(ReversalOf(s.moves[id], date)), on, ALL_TIME);
    }
  }

  // ─── Runs ───────────────────────────────────────────────────────────

  datatype ChequeStep =
    | Record(received: bool, partner: PartnerId, amount: int, maturity: Date, on: Date)
    | Clear(id: nat, on: Date)
    | Bounce(id: nat, on: Date)
    | Mature(today: Date)
    | Other(after: State)

  function DeskAfter(c: Chart, d: Desk, step: ChequeStep): Desk {
    match step
    case Record(received, partner, amount, maturity, on) => RecordPdc(c, d, received, partner, amount, maturity, on).desk
    case Clear(id, on) => ClearPdc(c, d, id, on).desk
    case Bounce(id, on) => BouncePdc(c, d, id, on).desk
    case Mature(today) => MatureDue(c, d, today)
    case Other(after) => d.(db := after)
  }

  function DeskRun(c: Chart, d: Desk, steps: seq<ChequeStep>): Desk {
    if steps == [] then d else DeskAfter(c, DeskRun(c, d, steps[..|steps| - 1]), steps[|steps| - 1])
  }

  /** Whatever else happens between the cheque steps leaves the cheques' accounts and entries alone. */
  ghost predicate OthersUndisturbed(c: Chart, a: PdcAccounts, d: Desk, steps: seq<ChequeStep>) {
    forall i: nat :: i < |steps| && steps[i].Other? ==> Undisturbed(c, a, DeskRun(c, d, steps[..i]), steps[i].after)
  }

  lemma {:induction false} ClearAllKeepsDesk(c: Chart, a: PdcAccounts, d: Desk, ids: seq<nat>, today: Date)
    requires DeskOk(c, a, d) && ChequeAccountsOk(c, a)
    ensures DeskOk(c, a, ClearAll(c, d, ids, today))
  {
    hide DeskOk, ChequeAccountsOk, ClearPdc;
    if ids != [] {
      ClearAllKeepsDesk(c, a, d, ids[..|ids| - 1], today);
      ClearKeepsDesk(c, a, ClearAll(c, d, ids[..|ids| - 1], today), ids[|ids| - 1], today);
    }
  }

  lemma StepKeepsDesk(c: Chart, a: PdcAccounts, d: Desk, step: ChequeStep)
    requires DeskOk(c, a, d) && ChequeAccountsOk(c, a)
    requires step.Other? ==> Undisturbed(c, a, d, step.after)
    ensures DeskOk(c, a, DeskAfter(c, d, step))
  {
    hide DeskOk, ChequeAccountsOk, RecordPdc, ClearPdc, BouncePdc, MatureDue, Undisturbed;
    match step
    case Record(received, partner, amount, maturity, on) => RecordKeepsDesk(c, a, d, received, partner, amount, maturity, on);
    case Clear(id, on) => ClearKeepsDesk(c, a, d, id, on);
    case Bounce(id, on) => BounceKeepsDesk(c, a, d, id, on);
    case Mature(today) => MatureKeepsDesk(c, a, d, today);
    case Other(after) => OthersKeepDesk(c, a, d, after);
  }

  lemma {:induction false} RunKeepsDesk(c: Chart, a: PdcAccounts, d: Desk, steps: seq<ChequeStep>)
    requires DeskOk(c, a, d) && ChequeAccountsOk(c, a) && OthersUndisturbed(c, a, d, steps)
    ensures DeskOk(c, a, DeskRun(c, d, steps))
  {
    hide DeskOk, ChequeAccountsOk, DeskAfter, Undisturbed;
    if steps != [] {
      var rest, last := steps[..|steps| - 1], steps[|steps| - 1];
      assert forall i: nat :: i < |rest| ==> rest[..i] == steps[..i];
      assert steps[|steps| - 1].Other? ==> Undisturbed(c, a, DeskRun(c, d, steps[..|steps| - 1]), last.after);
      RunKeepsDesk(c, a, d, rest);
      StepKeepsDesk(c, a, DeskRun(c, d, rest), last);
    }
  }

  /**
   Over any run of cheque steps, interleaved with anything that leaves the two accounts alone, account
   1150 carries the face value of the received cheques in hand and 2150 that of the issued ones.
   */
  lemma ChequesAreConserved(c: Chart, a: PdcAccounts, d: Desk, steps: seq<ChequeStep>)
    requires DeskOk(c, a, d) && ChequeAccountsOk(c, a) && OthersUndisturbed(c, a, d, steps)
    ensures Balance(DeskRun(c, d, steps).db.moves, {a.received}, ALL_TIME) == InHand(DeskRun(c, d, steps).cheques, true)
    ensures Balance(DeskRun(c, d, steps).db.moves, {a.issued}, ALL_TIME) == -InHand(DeskRun(c, d, steps).cheques, false)
  {
    hide DeskRun, ChequeAccountsOk, OthersUndisturbed;
    RunKeepsDesk(c, a, d, steps);
  }

  lemma MatureKeepsDesk(c: Chart, a: PdcAccounts, d: Desk, today: Date)
    requires DeskOk(c, a, d) && ChequeAccountsOk(c, a)
    ensures DeskOk(c, a, MatureDue(c, d, today))
  {
    ClearAllKeepsDesk(c, a, d, Due(d.cheques, today, |d.cheques|), today);
  }

  /** Recording a cheque appends one posted entry on its date, and the cheque that points at it. */
  lemma RecordedRow(c: Chart, d: Desk, received: bool, partner: PartnerId, amount: int, maturity: Date, date: Date)
    requires Inv(c, d.db) && RecordPdc(c, d, received, partner, amount, maturity, date).result.Ok?
    ensures var e := RecordPdc(c, d, received, partner, amount, maturity, date).desk;
            && Inv(c, e.db) && |e.db.moves| == |d.db.moves| + 1
            && e.db.moves == d.db.moves + [e.db.moves[|d.db.moves|]]
            && e.db.moves[|d.db.moves|].stage.Posted? && e.db.moves[|d.db.moves|].date == date
            && |e.cheques| == |d.cheques| + 1 && e.cheques[|d.cheques|].holding == |d.db.moves|
  {
    var counterpart := c.PartnerAccount(Some(partner), if received then Receivable else Payable);
    var lines := HoldingLines(PdcAccountsOf(c).value, counterpart.value, received, amount);
    var entry := NewMove("GEN", date, Entry, Some(partner), FromSen(lines));
    CreateAndPostKeeps(c, d.db, entry, {});
    CreateAndPostEffect(c, d.db, entry, lines);
    hide InvExcept, CreateAndPost, Guarded, Balanced, RowsAccepted, Frozen;
  }

  /**
   A cheque that is recorded and bounces leaves every balance as it was, in every window that holds
   both dates, and 1150 and 2150 in particular.
   */
  lemma BounceUndoesRecord(c: Chart, d: Desk, received: bool, partner: PartnerId, amount: int, maturity: Date, date: Date,
                           bounced: Date, on: set<AccountId>, w: Window)
    requires Inv(c, d.db) && w.Has(date) && w.Has(bounced)
    requires RecordPdc(c, d, received, partner, amount, maturity, date).result.Ok?
    requires BouncePdc(c, RecordPdc(c, d, received, partner, amount, maturity, date).desk, |d.cheques|, bounced).result.Ok?
    ensures Balance(BouncePdc(c, RecordPdc(c, d, received, partner, amount, maturity, date).desk, |d.cheques|, bounced).desk.db.moves,
                    on, w) == Balance(d.db.moves, on, w)
  {
    var e := RecordPdc(c, d, received, partner, amount, maturity, date).desk;
    RecordedRow(c, d, received, partner, amount, maturity, date);
    hide Inv, RecordPdc, ReverseMove, Balance, Net;
    var row := e.db.moves[|d.db.moves|];
    BalanceWithRow(d.db.moves, row, on, w);
    ReversalCancels(c, e.db, |d.db.moves|, bounced, on, w);
  }

  // ─── The daily job ──────────────────────────────────────────────────

  lemma {:induction false} DueIs(cheques: seq<Pdc>, today: Date, n: nat)
    requires n <= |cheques|
    ensures forall k: nat :: k in Due(cheques, today, n) <==> k < n && cheques[k].state.Holding? && cheques[k].maturity <= today
  {
    if n > 0 {
      DueIs(cheques, today, n - 1);
    }
  }

  /** Everything that clearing needs: both holding accounts, a bank account, the bank journal and an open day. */
  ghost predicate CanClear(c: Chart, s: State, day: Date) {
    && (exists i :: 0 <= i < |c.accounts| && c.accounts[i].code == "1150")
    && (exists i :: 0 <= i < |c.accounts| && c.accounts[i].code == "2150")
    && (exists i :: 0 <= i < |c.accounts| && c.accounts[i].kind == AssetBank)
    && "BNK" in c.journals && !Frozen(s, day)
  }

  /** When a cheque in hand is cleared; a failed attempt changes no cheque, and no attempt changes which days are open. */
  lemma ClearSucceedsWhen(c: Chart, d: Desk, id: nat, day: Date)
    requires id < |d.cheques|
    ensures var r := ClearPdc(c, d, id, day);
            && (r.result.Ok? <==> d.cheques[id].state.Holding? && d.cheques[id].amount > 0 && CanClear(c, d.db, day))
            && r.desk.cheques == (if r.result.Ok? then d.cheques[id := d.cheques[id].(state := Cleared)] else d.cheques)
            && r.desk.db.lock == d.db.lock && r.desk.db.years == d.db.years
  {
    assert c.ByCode("1150").Some? <==> exists i :: 0 <= i < |c.accounts| && c.accounts[i].code == "1150";
    assert c.ByCode("2150").Some? <==> exists i :: 0 <= i < |c.accounts| && c.accounts[i].code == "2150";
    assert c.FirstOfKind(AssetBank).Some? <==> exists i :: 0 <= i < |c.accounts| && c.accounts[i].kind == AssetBank;
    var p, bank := d.cheques[id], c.FirstOfKind(AssetBank);
    if p.state.Holding? && PdcAccountsOf(c).Some? && bank.Some? {
      ClearingPosts(c, d.db, PdcAccountsOf(c).value, bank.value, p.received, p.amount, day);
    }
    hide CreateAndPost, Frozen;
  }

  lemma ClearingPosts(c: Chart, s: State, a: PdcAccounts, bank: AccountId, received: bool, amount: int, day: Date)
    requires a.received < |c.accounts| && a.issued < |c.accounts| && bank < |c.accounts|
    ensures var r := CreateAndPost(c, s, NewMove("BNK", day, Entry, None, FromSen(ClearingLines(a, bank, received, amount))));
            && (r.result.Ok? <==> amount > 0 && "BNK" in c.journals && !Frozen(s, day))
            && r.db.lock == s.lock && r.db.years == s.years
  {
    var lines := ClearingLines(a, bank, received, amount);
    SumsOfTwo(lines[0], lines[1], {});
    assert lines == [lines[0], lines[1]];
    CreateAndPostEffect(c, s, NewMove("BNK", day, Entry, None, FromSen(lines)), lines);
    hide CreateAndPost, Frozen;
  }

  lemma {:induction false} ClearAllIs(c: Chart, d: Desk, ids: seq<nat>, today: Date)
    requires forall id :: id in ids ==> id < |d.cheques|
    ensures var r := ClearAll(c, d, ids, today);
            && |r.cheques| == |d.cheques| && r.db.lock == d.db.lock && r.db.years == d.db.years
            && forall k: nat :: k < |d.cheques| ==>
                 var p := d.cheques[k];
                 r.cheques[k] == if k in ids && p.state.Holding? && p.amount > 0 && CanClear(c, d.db, today) then p.(state := Cleared) else p
  {
    hide ClearPdc;
    if ids != [] {
      var rest, last := ids[..|ids| - 1], ids[|ids| - 1];
      assert ids == rest + [last];
      assert last in ids && forall id :: id in rest ==> id in ids;
      ClearAllIs(c, d, rest, today);
      var before := ClearAll(c, d, rest, today);
      ClearSucceedsWhen(c, before, last, today);
    }
  }

  /**
   The daily job clears exactly the cheques in hand whose maturity is today or earlier, provided the
   accounts and the bank journal are there and the day is open, and touches no other cheque.
   */
  lemma MatureClearsTheDue(c: Chart, d: Desk, today: Date)
    ensures var r := MatureDue(c, d, today);
            && |r.cheques| == |d.cheques|
            && forall k: nat :: k < |d.cheques| ==>
                 var p := d.cheques[k];
                 r.cheques[k] == if p.state.Holding? && p.maturity <= today && p.amount > 0 && CanClear(c, d.db, today)
                                 then p.(state := Cleared) else p
  {
    hide CanClear, ClearAll, Due;
    DueIs(d.cheques, today, |d.cheques|);
    ClearAllIs(c, d, Due(d.cheques, today, |d.cheques|), today);
  }
}
