/** Period-end revaluation of open foreign-currency items, reversed the next day (`currency.rs`). */
module Revaluation {
  import opened Wrappers
  import opened Ledger
  import opened ServiceModel
  import opened CurrencyModel
  import opened Invariant
  import opened Periods
  import opened PostingKeeps
  import opened YearEnd

  datatype FxItem = FxItem(account: AccountId, currency: CurrencyId, open: int, booked: int)

  predicate IsOpenFx(m: Move, asOf: Date) {
    && m.stage.Posted? && m.date <= asOf && m.rate.Some?
    && m.residualCurrency.Some? && m.residualCurrency.value != 0
    && m.currency.Some? && m.currency.value != MYR
  }

  /** One item per distinct control account among the first `n` lines of a row. */
  function ItemsOfRow(c: Chart, m: Move, n: nat): seq<FxItem>
    requires n <= |m.lines| && m.rate.Some? && m.residualCurrency.Some? && m.currency.Some?
  {
    if n == 0 then []
    else
      var before := ItemsOfRow(c, m, n - 1);
      var a := m.lines[n - 1].account;
      if c.Reconcilable(a) && (forall i :: 0 <= i < n - 1 ==> m.lines[i].account != a) then
        before + [FxItem(a, m.currency.value, m.residualCurrency.value, ToMyr(m.residualCurrency.value, m.rate.value))]
      else before
  }

  function OpenFxItems(c: Chart, moves: seq<Move>, asOf: Date): seq<FxItem> {
    if moves == [] then []
    else
      var m := moves[|moves| - 1];
      OpenFxItems(c, moves[..|moves| - 1], asOf) + if IsOpenFx(m, asOf) then ItemsOfRow(c, m, |m.lines|) else []
  }

  predicate RatesKnown(c: Chart, items: seq<FxItem>, asOf: Date) {
    forall i :: 0 <= i < |items| ==> RateOn(c, items[i].currency, asOf).Some?
  }

  /** The difference between the closing-rate value of an item and its booked value. */
  function ItemDelta(c: Chart, item: FxItem, asOf: Date): int
    requires RateOn(c, item.currency, asOf).Some?
  {
    FxDelta(item.open, item.booked, RateOn(c, item.currency, asOf).value)
  }

  function DeltaLine(account: AccountId, delta: int): Line {
    if delta > 0 then Debit(account, delta) else Credit(account, Abs(delta))
  }

  /** One line per item that moved. */
  function RevalLines(c: Chart, items: seq<FxItem>, asOf: Date): seq<Line>
    requires RatesKnown(c, items, asOf)
  {
    if items == [] then []
    else
      var before := RevalLines(c, items[..|items| - 1], asOf);
      var item := items[|items| - 1];
      var delta := ItemDelta(c, item, asOf);
      if delta == 0 then before else before + [DeltaLine(item.account, delta)]
  }

  function NetGain(c: Chart, items: seq<FxItem>, asOf: Date): int
    requires RatesKnown(c, items, asOf)
  {
    if items == [] then 0 else NetGain(c, items[..|items| - 1], asOf) + ItemDelta(c, items[|items| - 1], asOf)
  }

  function GainLossLines(accounts: GainLoss, net: int): seq<Line> {
    if net > 0 then [Credit(accounts.gain, net)] else if net < 0 then [Debit(accounts.loss, Abs(net))] else []
  }

  function RevaluationLines(c: Chart, items: seq<FxItem>, asOf: Date, accounts: GainLoss): seq<Line>
    requires RatesKnown(c, items, asOf)
  {
    RevalLines(c, items, asOf) + GainLossLines(accounts, NetGain(c, items, asOf))
  }

  datatype Pairing = Pairing(revaluation: MoveId, reversal: MoveId)

  function PostAndReverse(c: Chart, s: State, lines: seq<Line>, asOf: Date): Reply<Option<Pairing>> {
    var posted := CreateAndPost(c, s, NewMove("GEN", asOf, Entry, None, FromSen(lines)));
    if posted.result.Err? then Reply(posted.db, Err(posted.result.error))
    else
      var reversed := ReverseMove(c, posted.db, posted.result.value, asOf + 1);
      Reply(reversed.db, if reversed.result.Ok? then Ok(Some(Pairing(posted.result.value, reversed.result.value)))
                         else Err(reversed.result.error))
  }

  function RevalueOpenItems(c: Chart, s: State, asOf: Date): Reply<Option<Pairing>> {
    var items := OpenFxItems(c, s.moves, asOf);
    if c.unrealizedFx.None? then Reply(s, Err(NoFxAccounts))
    else if !RatesKnown(c, items, asOf) then Reply(s, Err(NoRate))
    else if RevalLines(c, items, asOf) == [] then Reply(s, Ok(None))
    else PostAndReverse(c, s, RevaluationLines(c, items, asOf, c.unrealizedFx.value), asOf)
  }

  // ─── The entry balances ─────────────────────────────────────────────

  lemma {:induction false} RevalShape(c: Chart, items: seq<FxItem>, asOf: Date)
    requires RatesKnown(c, items, asOf)
    ensures forall l :: l in RevalLines(c, items, asOf) ==> OneSided(l) && !l.reconciled && l.foreign.None?
  {
    if items != [] {
      RevalShape(c, items[..|items| - 1], asOf);
    }
  }

  lemma {:induction false} RevalSums(c: Chart, items: seq<FxItem>, asOf: Date)
    requires RatesKnown(c, items, asOf)
    ensures var lines := RevalLines(c, items, asOf);
            && SumDebit(lines) - SumCredit(lines) == NetGain(c, items, asOf)
            && SumDebit(lines) + SumCredit(lines) >= |lines|
            && SumDebit(lines) >= 0 && SumCredit(lines) >= 0
            && (|lines| == 1 ==> NetGain(c, items, asOf) != 0)
            && (|lines| == 0 ==> NetGain(c, items, asOf) == 0)
  {
    if items != [] {
      var rest, item := items[..|items| - 1], items[|items| - 1];
      RevalSums(c, rest, asOf);
      SumsOfOneMore(RevalLines(c, rest, asOf), DeltaLine(item.account, ItemDelta(c, item, asOf)), {});
    }
  }

  /**
   Any mix of gains and losses, netting to zero included, makes an entry that can be posted; a net gain
   goes to the gain account and a net loss to the loss account.
   */
  lemma RevaluationIsBalanced(c: Chart, items: seq<FxItem>, asOf: Date, accounts: GainLoss)
    requires RatesKnown(c, items, asOf) && RevalLines(c, items, asOf) != []
    ensures Balanced(RevaluationLines(c, items, asOf, accounts)) && FreshLines(RevaluationLines(c, items, asOf, accounts))
    ensures var net := NetGain(c, items, asOf);
            && (net >= 0 ==> Net(GainLossLines(accounts, net), {accounts.gain}) == -net)
            && (net <= 0 ==> Net(GainLossLines(accounts, net), {accounts.loss}) == -net)
  {
    var lines := RevalLines(c, items, asOf);
    var tail := GainLossLines(accounts, NetGain(c, items, asOf));
    if tail != [] {
      SumsOfOne(tail[0], {tail[0].account});
    }
    RevalShape(c, items, asOf);
    RevalSums(c, items, asOf);
    BalancedWithTail(lines, tail);
  }

  /** Σ of the differences of the items on one account. */
  function DeltaOn(c: Chart, items: seq<FxItem>, asOf: Date, a: AccountId): int
    requires RatesKnown(c, items, asOf)
  {
    if items == [] then 0
    else
      var item := items[|items| - 1];
      DeltaOn(c, items[..|items| - 1], asOf, a) + if item.account == a then ItemDelta(c, item, asOf) else 0
  }

  lemma {:induction false} RevalNet(c: Chart, items: seq<FxItem>, asOf: Date, a: AccountId)
    requires RatesKnown(c, items, asOf)
    ensures Net(RevalLines(c, items, asOf), {a}) == DeltaOn(c, items, asOf, a)
  {
    if items != [] {
      var rest, item := items[..|items| - 1], items[|items| - 1];
      RevalNet(c, rest, asOf, a);
      SumsOfOneMore(RevalLines(c, rest, asOf), DeltaLine(item.account, ItemDelta(c, item, asOf)), {a});
    }
  }

  /**
   What the revaluation shows on account `a` for one row: a row that is posted by the date, kept in a
   foreign currency and still open in it, is worth its open amount at the closing rate instead of the
   rate it was booked at, on each receivable or payable it has a line on.
   */
  function Unrealised(c: Chart, m: Move, asOf: Date, a: AccountId): int {
    if m.stage.Posted? && m.date <= asOf && m.currency.Some? && m.currency.value != MYR && m.rate.Some? && m.residualCurrency.Some?
       && m.residualCurrency.value != 0 && c.rate(m.currency.value, asOf).Some?
       && c.Reconcilable(a) && exists i :: 0 <= i < |m.lines| && m.lines[i].account == a
    then ToMyr(m.residualCurrency.value, c.rate(m.currency.value, asOf).value) - ToMyr(m.residualCurrency.value, m.rate.value)
    else 0
  }

  /** Σ over the rows. */
  function UnrealisedOn(c: Chart, moves: seq<Move>, asOf: Date, a: AccountId): int {
    if moves == [] then 0
    else UnrealisedOn(c, moves[..|moves| - 1], asOf, a) + Unrealised(c, moves[|moves| - 1], asOf, a)
  }

  lemma {:induction false} DeltaOfConcat(c: Chart, x: seq<FxItem>, y: seq<FxItem>, asOf: Date, a: AccountId)
    requires RatesKnown(c, x + y, asOf)
    ensures RatesKnown(c, x, asOf) && RatesKnown(c, y, asOf)
    ensures DeltaOn(c, x + y, asOf, a) == DeltaOn(c, x, asOf, a) + DeltaOn(c, y, asOf, a)
  {
    assert forall i :: 0 <= i < |x| ==> (x + y)[i] == x[i];
    assert forall i :: 0 <= i < |y| ==> (x + y)[|x| + i] == y[i];
    if y == [] {
      assert x + y == x;
    } else {
      assert (x + y)[..|x + y| - 1] == x + y[..|y| - 1];
      DeltaOfConcat(c, x, y[..|y| - 1], asOf, a);
    }
  }

  /** A row has one item for each receivable or payable it has a line on. */
  lemma {:induction false} ItemsOnAccount(c: Chart, m: Move, asOf: Date, n: nat, a: AccountId)
    requires n <= |m.lines| && m.rate.Some? && m.residualCurrency.Some? && m.currency.Some? && m.currency.value != MYR
    requires RatesKnown(c, ItemsOfRow(c, m, n), asOf)
    ensures var on := c.Reconcilable(a) && exists i :: 0 <= i < n && m.lines[i].account == a;
            && (on ==> c.rate(m.currency.value, asOf).Some?)
            && DeltaOn(c, ItemsOfRow(c, m, n), asOf, a) ==
               if on then ToMyr(m.residualCurrency.value, c.rate(m.currency.value, asOf).value) - ToMyr(m.residualCurrency.value, m.rate.value)
               else 0
  {
    hide ToMyr;
    if n > 0 {
      var before, last := ItemsOfRow(c, m, n - 1), m.lines[n - 1].account;
      var items := ItemsOfRow(c, m, n);
      assert forall i :: 0 <= i < |before| ==> items[i] == before[i];
      ItemsOnAccount(c, m, asOf, n - 1, a);
      if c.Reconcilable(last) && forall i :: 0 <= i < n - 1 ==> m.lines[i].account != last {
        assert items[..|items| - 1] == before;
        assert RateOn(c, items[|items| - 1].currency, asOf).Some?;
        assert m.lines[n - 1].account == last;
      }
    }
  }

  lemma {:induction false} ItemsAreUnrealised(c: Chart, moves: seq<Move>, asOf: Date, a: AccountId)
    requires RatesKnown(c, OpenFxItems(c, moves, asOf), asOf)
    ensures DeltaOn(c, OpenFxItems(c, moves, asOf), asOf, a) == UnrealisedOn(c, moves, asOf, a)
  {
    hide ItemsOfRow, DeltaOn, ToMyr;
    if moves == [] {
      NothingOpen(c, asOf, a);
    } else {
      var rest, m := moves[..|moves| - 1], moves[|moves| - 1];
      var own := if IsOpenFx(m, asOf) then ItemsOfRow(c, m, |m.lines|) else [];
      DeltaOfConcat(c, OpenFxItems(c, rest, asOf), own, asOf, a);
      ItemsAreUnrealised(c, rest, asOf, a);
      NothingOpen(c, asOf, a);
      if IsOpenFx(m, asOf) {
        ItemsOnAccount(c, m, asOf, |m.lines|, a);
      }
    }
  }

  lemma NothingOpen(c: Chart, asOf: Date, a: AccountId)
    ensures DeltaOn(c, [], asOf, a) == 0
  {
  }

  // ─── What the books show ────────────────────────────────────────────

  lemma PostAndReverseEffect(c: Chart, s: State, lines: seq<Line>, asOf: Date, on: set<AccountId>, w: Window)
    requires Inv(c, s) && Balanced(lines) && FreshLines(lines) && PostAndReverse(c, s, lines, asOf).result.Ok?
    ensures Balance(PostAndReverse(c, s, lines, asOf).db.moves, on, w) ==
            Balance(s.moves, on, w) + (if w.Has(asOf) then Net(lines, on) else 0) - (if w.Has(asOf + 1) then Net(lines, on) else 0)
  {
    var entry := NewMove("GEN", asOf, Entry, None, FromSen(lines));
    CreateAndPostKeeps(c, s, entry, {});
    CreateAndPostEffect(c, s, entry, lines);
    hide InvExcept, Guarded, ReverseMove, Balanced;
    var posted := CreateAndPost(c, s, entry);
    var row := posted.db.moves[|s.moves|];
    ReversalCancels(c, posted.db, |s.moves|, asOf + 1, on, w);
    BalanceWithRow(s.moves, row, on, w);
  }

  /**
   Revaluation. In windows that end on the revaluation date each account has moved by what the open
   foreign-currency documents on it are worth at the closing rate less what they are worth at their own
   rates; from the next day on every balance is what it was.
   */
  lemma RevaluationShowsThenReverses(c: Chart, s: State, asOf: Date)
    requires Inv(c, s) && RevalueOpenItems(c, s, asOf).result.Ok? && RevalueOpenItems(c, s, asOf).result.value.Some?
    ensures var t := RevalueOpenItems(c, s, asOf).db;
            && (forall on: set<AccountId>, w: Window :: w.Has(asOf) && w.Has(asOf + 1) ==>
                  Balance(t.moves, on, w) == Balance(s.moves, on, w))
            && (forall a, w: Window ::
                  (w.Has(asOf) && !w.Has(asOf + 1) && a != c.unrealizedFx.value.gain && a != c.unrealizedFx.value.loss) ==>
                  Balance(t.moves, {a}, w) == Balance(s.moves, {a}, w) + UnrealisedOn(c, s.moves, asOf, a))
  {
    hide InvExcept, PostAndReverse, Balanced, UnrealisedOn;
    var items := OpenFxItems(c, s.moves, asOf);
    var accounts := c.unrealizedFx.value;
    var lines := RevaluationLines(c, items, asOf, accounts);
    var t := RevalueOpenItems(c, s, asOf).db;
    RevaluationIsBalanced(c, items, asOf, accounts);
    forall on: set<AccountId>, w: Window | w.Has(asOf) && w.Has(asOf + 1)
      ensures Balance(t.moves, on, w) == Balance(s.moves, on, w)
    {
      PostAndReverseEffect(c, s, lines, asOf, on, w);
    }
    forall a, w: Window | w.Has(asOf) && !w.Has(asOf + 1) && a != accounts.gain && a != accounts.loss
      ensures Balance(t.moves, {a}, w) == Balance(s.moves, {a}, w) + UnrealisedOn(c, s.moves, asOf, a)
    {
      ItemsAreUnrealised(c, s.moves, asOf, a);
      PostAndReverseEffect(c, s, lines, asOf, {a}, w);
      RevalNet(c, items, asOf, a);
      var tail := GainLossLines(accounts, NetGain(c, items, asOf));
      SumsOfConcat(RevalLines(c, items, asOf), tail, {a});
      assert tail != [] ==> tail[..0] == [];
    }
  }

  lemma RevalueKeeps(c: Chart, s: State, asOf: Date)
    requires Inv(c, s)
    ensures Keeps(c, s, RevalueOpenItems(c, s, asOf).db, {})
  {
    hide InvExcept, Guarded, PostAndReverse;
    var items := OpenFxItems(c, s.moves, asOf);
    if c.unrealizedFx.Some? && RatesKnown(c, items, asOf) && RevalLines(c, items, asOf) != [] {
      RevaluationIsBalanced(c, items, asOf, c.unrealizedFx.value);
      PostAndReverseKeeps(c, s, RevaluationLines(c, items, asOf, c.unrealizedFx.value), asOf);
    } else {
      GuardedSelf(s);
    }
  }

  lemma PostAndReverseKeeps(c: Chart, s: State, lines: seq<Line>, asOf: Date)
    requires Inv(c, s) && FreshLines(lines)
    ensures Keeps(c, s, PostAndReverse(c, s, lines, asOf).db, {})
  {
    hide InvExcept, Guarded, CreateAndPost, ReverseMove;
    var entry := NewMove("GEN", asOf, Entry, None, FromSen(lines));
    CreateAndPostKeeps(c, s, entry, {});
    var posted := CreateAndPost(c, s, entry);
    if posted.result.Ok? {
      ReverseKeeps(c, posted.db, posted.result.value, asOf + 1, {});
      GuardedChain(s, posted.db, ReverseMove(c, posted.db, posted.result.value, asOf + 1).db);
    }
  }
}
