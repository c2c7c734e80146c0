/** The two-pointer loop that `settle_documents`, `apply_payment` and `post_settlement` share. */
module Matcher {
  import opened Wrappers
  import opened Ledger
  import opened Tables
  import opened Pools

  /** The rows found once the loop stands at debit `i` and credit `j`. */
  ghost function RowsAt(ds: seq<Slot>, cs: seq<Slot>, i: nat, j: nat): seq<Reconcile>
    requires i <= |ds| && j <= |cs|
  {
    if i == |ds| then Rows(ds, cs, i) else Rows(ds, cs, i) + RowsOf(ds, cs, i, j)
  }

  /** How far along both axes the loop has come. */
  ghost function At(ds: seq<Slot>, cs: seq<Slot>, i: nat, j: nat): int
    requires i <= |ds| && j <= |cs|
  {
    Max(Start(ds, i), Start(cs, j))
  }

  /** What is left on debit `i` and on credit `j` at that point. */
  ghost predicate Remaining(ds: seq<Slot>, cs: seq<Slot>, i: nat, j: nat, debit: int, credit: int)
    requires i < |ds| && j < |cs|
  {
    && debit == Start(ds, i + 1) - At(ds, cs, i, j) >= 0
    && credit == Start(cs, j + 1) - At(ds, cs, i, j) >= 0
  }

  /** The amount matched in a turn is the overlap of the two intervals. */
  lemma MatchedIsOverlap(ds: seq<Slot>, cs: seq<Slot>, i: nat, j: nat, debit: int, credit: int)
    requires i < |ds| && j < |cs| && Remaining(ds, cs, i, j, debit, credit)
    ensures Min(debit, credit) == Overlap(ds, cs, i, j) >= 0
    ensures RowsOf(ds, cs, i, j + 1) ==
            RowsOf(ds, cs, i, j) + if Min(debit, credit) > 0 then [Reconcile(ds[i].line, cs[j].line, Min(debit, credit), 0)] else []
  {
  }

  /** Moving on from a used-up debit loses no row, and the next debit has none yet. */
  lemma NextDebit(ds: seq<Slot>, cs: seq<Slot>, i: nat, j: nat, debit: int, credit: int)
    requires i < |ds| && j < |cs| && NonNegative(ds) && NonNegative(cs)
    requires Remaining(ds, cs, i, j, debit, credit) && debit <= credit
    ensures RowsAt(ds, cs, i + 1, if credit <= debit then j + 1 else j) == Rows(ds, cs, i) + RowsOf(ds, cs, i, j + 1)
  {
    var next := if credit <= debit then j + 1 else j;
    NoOverlapAfter(ds, cs, i, j + 1);
    RowsOfTail(ds, cs, i, j + 1, |cs|);
    if i + 1 < |ds| {
      NoOverlapBefore(ds, cs, i + 1, next);
      RowsOfTail(ds, cs, i + 1, 0, next);
    }
  }

  /** Where the loop stands after a turn. */
  lemma TurnMoves(ds: seq<Slot>, cs: seq<Slot>, i: nat, j: nat, debit: int, credit: int)
    requires i < |ds| && j < |cs| && NonNegative(ds) && NonNegative(cs)
    requires Remaining(ds, cs, i, j, debit, credit)
    ensures var matched := Min(debit, credit);
            var i', j' := if debit <= matched then i + 1 else i, if credit <= matched then j + 1 else j;
            && At(ds, cs, i', j') == At(ds, cs, i, j) + matched
            && (i' < |ds| && j' < |cs| ==>
                  Remaining(ds, cs, i', j', if i' == i then debit - matched else ds[i'].amount,
                            if j' == j then credit - matched else cs[j'].amount))
            && RowsAt(ds, cs, i', j') == Rows(ds, cs, i) + RowsOf(ds, cs, i, j + 1)
  {
    hide Start, RowsOf, Rows, Overlap;
    StartStep(ds, i);
    StartStep(cs, j);
    if i + 1 < |ds| {
      StartStep(ds, i + 1);
    }
    if j + 1 < |cs| {
      StartStep(cs, j + 1);
    }
    if debit <= credit {
      NextDebit(ds, cs, i, j, debit, credit);
    }
  }

  /** When one pool is used up, the rows found are all there are. */
  lemma LoopEnds(ds: seq<Slot>, cs: seq<Slot>, i: nat, j: nat)
    requires i <= |ds| && j <= |cs| && (i == |ds| || j == |cs|) && NonNegative(ds) && NonNegative(cs)
    requires i < |ds| ==> Start(cs, j) <= Start(ds, i + 1)
    ensures RowsAt(ds, cs, i, j) == Matching(ds, cs)
  {
    if i < |ds| {
      forall d: nat, c: nat | i + 1 <= d < |ds| && c < |cs| ensures Overlap(ds, cs, d, c) == 0 {
        StartMonotone(ds, i + 1, d);
        NoOverlapBefore(ds, cs, d, j);
      }
      RowsTail(ds, cs, i + 1, |ds|);
    }
  }

  /** A turn never passes the end of the debit it works on. */
  lemma StaysWithin(ds: seq<Slot>, cs: seq<Slot>, i: nat, j: nat, debit: int, credit: int)
    requires i < |ds| && j < |cs| && Remaining(ds, cs, i, j, debit, credit) && NonNegative(ds)
    ensures var i' := if debit <= credit then i + 1 else i;
            var j' := if credit <= debit then j + 1 else j;
            i' < |ds| ==> Start(cs, j') <= Start(ds, i' + 1)
  {
    if i + 1 < |ds| {
      StartMonotone(ds, i + 1, i + 2);
    }
  }

  /** The pools `xs` and `ys`, as drawn down so far, when the loop stands at debit `i` and credit `j`. */
  ghost predicate Standing(ds: seq<Slot>, cs: seq<Slot>, xs: seq<Slot>, ys: seq<Slot>, i: nat, j: nat) {
    && NonNegative(ds) && NonNegative(cs) && |xs| == |ds| && |ys| == |cs| && i <= |ds| && j <= |cs|
    && (forall k :: i < k < |ds| ==> xs[k] == ds[k]) && (forall k :: j < k < |cs| ==> ys[k] == cs[k])
    && (i < |ds| ==> xs[i].line == ds[i].line && Start(cs, j) <= Start(ds, i + 1))
    && (j < |cs| ==> ys[j].line == cs[j].line)
    && (i < |ds| && j < |cs| ==> Remaining(ds, cs, i, j, xs[i].amount, ys[j].amount))
  }

  lemma LoopStarts(ds: seq<Slot>, cs: seq<Slot>)
    requires NonNegative(ds) && NonNegative(cs)
    ensures RowsAt(ds, cs, 0, 0) == [] && Standing(ds, cs, ds, cs, 0, 0)
  {
    if ds != [] {
      StartStep(ds, 0);
    }
    if cs != [] {
      StartStep(cs, 0);
    }
  }

  /** The row of a turn, if it has one. */
  function RowOf(x: Slot, y: Slot): seq<Reconcile> {
    var matched := Min(x.amount, y.amount);
    if matched > 0 then [Reconcile(x.line, y.line, matched, 0)] else []
  }

  function Less(pool: seq<Slot>, i: nat, amount: int): seq<Slot>
    requires i < |pool|
  {
    pool[i := pool[i].(amount := pool[i].amount - amount)]
  }

  /** One pool after a turn that took `matched` and moved on to `next`. */
  lemma PoolStands(ds: seq<Slot>, xs: seq<Slot>, i: nat, matched: int, next: nat)
    requires i < |ds| == |xs| && xs[i].line == ds[i].line && (forall k :: i < k < |ds| ==> xs[k] == ds[k]) && i <= next <= i + 1
    ensures |Less(xs, i, matched)| == |ds| && forall k :: next < k < |ds| ==> Less(xs, i, matched)[k] == ds[k]
    ensures next < |ds| ==>
              && Less(xs, i, matched)[next].line == ds[next].line
              && Less(xs, i, matched)[next].amount == if next == i then xs[i].amount - matched else ds[next].amount
  {
  }

  /** What the pools look like after a turn. */
  lemma TurnStands(ds: seq<Slot>, cs: seq<Slot>, xs: seq<Slot>, ys: seq<Slot>, i: nat, j: nat)
    requires Standing(ds, cs, xs, ys, i, j) && i < |ds| && j < |cs|
    ensures var matched := Min(xs[i].amount, ys[j].amount);
            Standing(ds, cs, Less(xs, i, matched), Less(ys, j, matched),
                     if xs[i].amount <= matched then i + 1 else i, if ys[j].amount <= matched then j + 1 else j)
  {
    TurnMoves(ds, cs, i, j, xs[i].amount, ys[j].amount);
    StaysWithin(ds, cs, i, j, xs[i].amount, ys[j].amount);
    var matched := Min(xs[i].amount, ys[j].amount);
    PoolStands(ds, xs, i, matched, if xs[i].amount <= matched then i + 1 else i);
    PoolStands(cs, ys, j, matched, if ys[j].amount <= matched then j + 1 else j);
    hide Start, RowsAt, At, NonNegative, Remaining, Less, RowsOf, Rows;
    if xs[i].amount < ys[j].amount {
    } else if ys[j].amount < xs[i].amount {
    }
  }

  /** One turn of the loop. */
  lemma Turn(ds: seq<Slot>, cs: seq<Slot>, xs: seq<Slot>, ys: seq<Slot>, i: nat, j: nat)
    requires Standing(ds, cs, xs, ys, i, j) && i < |ds| && j < |cs|
    ensures var matched := Min(xs[i].amount, ys[j].amount);
            var i', j' := if xs[i].amount <= matched then i + 1 else i, if ys[j].amount <= matched then j + 1 else j;
            && matched >= 0
            && Standing(ds, cs, Less(xs, i, matched), Less(ys, j, matched), i', j')
            && RowsAt(ds, cs, i', j') == RowsAt(ds, cs, i, j) + RowOf(xs[i], ys[j])
  {
    TurnStands(ds, cs, xs, ys, i, j);
    MatchedIsOverlap(ds, cs, i, j, xs[i].amount, ys[j].amount);
    TurnMoves(ds, cs, i, j, xs[i].amount, ys[j].amount);
    hide Start, RowsOf, Rows, At, Overlap, NonNegative, Remaining, Standing, Less;
  }

  lemma StandingFacts(ds: seq<Slot>, cs: seq<Slot>, xs: seq<Slot>, ys: seq<Slot>, i: nat, j: nat)
    requires Standing(ds, cs, xs, ys, i, j)
    ensures |xs| == |ds| && |ys| == |cs| && i <= |ds| && j <= |cs|
    ensures i == |ds| || j == |cs| ==> RowsAt(ds, cs, i, j) == Matching(ds, cs)
  {
    if i == |ds| || j == |cs| {
      LoopEnds(ds, cs, i, j);
    }
  }

  /**
   Greedy line-to-line matching in place: the pools' entries are drawn down and one reconciliation is
   inserted per turn. The inserted rows are the interval overlaps of the two pools, at most one fewer
   than there are lines.
   */
  method MatchPools(db: Database, debits: array<Slot>, credits: array<Slot>)
    requires debits != credits && NonNegative(debits[..]) && NonNegative(credits[..])
    modifies db`recs, debits, credits
    ensures db.View() == old(db.View()).(recs := old(db.recs) + Matching(old(debits[..]), old(credits[..])))
    ensures |Matching(old(debits[..]), old(credits[..]))| <= Max(0, debits.Length + credits.Length - 1)
  {
    hide Standing, RowsAt, Matching, NonNegative;
    ghost var ds, cs := debits[..], credits[..];
    LoopStarts(ds, cs);
    var i, j := 0, 0;
    while i < debits.Length && j < credits.Length
      invariant 0 <= i <= debits.Length && 0 <= j <= credits.Length
      invariant Standing(ds, cs, debits[..], credits[..], i, j)
      invariant db.View() == old(db.View()).(recs := old(db.recs) + RowsAt(ds, cs, i, j))
      invariant |RowsAt(ds, cs, i, j)| <= Min(i + j, Max(0, debits.Length + credits.Length - 1))
      decreases debits.Length - i + (credits.Length - j)
    {
      ghost var xs, ys := debits[..], credits[..];
      Turn(ds, cs, xs, ys, i, j);
      var matched := Min(debits[i].amount, credits[j].amount);
      if matched > 0 {
        db.Reconcile(Reconcile(debits[i].line, credits[j].line, matched, 0));
        debits[i] := debits[i].(amount := debits[i].amount - matched);
        credits[j] := credits[j].(amount := credits[j].amount - matched);
      }
      assert debits[..] == Less(xs, i, matched) && credits[..] == Less(ys, j, matched);
      StandingFacts(ds, cs, xs, ys, i, j);
      var debitDone, creditDone := debits[i].amount <= 0, credits[j].amount <= 0;
      if debitDone {
        i := i + 1;
      }
      if creditDone {
        j := j + 1;
      }
    }
    StandingFacts(ds, cs, debits[..], credits[..], i, j);
  }
}
