/**
 Matching two pools of open lines.

 Lay the debit pool end to end on one axis and the credit pool on another; debit `i` and credit `j`
 are matched for exactly the length on which their intervals overlap. This is the specification of
 the two-pointer loop that the settlement services share.
 */
module Pools {
  import opened Wrappers
  import opened Ledger

  datatype Slot = Slot(line: LineRef, amount: int)

  function Total(pool: seq<Slot>): int {
    if pool == [] then 0 else Total(pool[..|pool| - 1]) + pool[|pool| - 1].amount
  }

  predicate NonNegative(pool: seq<Slot>) {
    forall i :: 0 <= i < |pool| ==> pool[i].amount >= 0
  }

  /** The start of slot `i` on the pool's axis; `Start(pool, |pool|)` is its total. */
  function Start(pool: seq<Slot>, i: nat): int
    requires i <= |pool|
  {
    Total(pool[..i])
  }

  function Overlap(ds: seq<Slot>, cs: seq<Slot>, i: nat, j: nat): int
    requires i < |ds| && j < |cs|
  {
    Max(0, Min(Start(ds, i + 1), Start(cs, j + 1)) - Max(Start(ds, i), Start(cs, j)))
  }

  /** The rows of debit `i` against the first `j` credits. */
  function RowsOf(ds: seq<Slot>, cs: seq<Slot>, i: nat, j: nat): seq<Reconcile>
    requires i < |ds| && j <= |cs|
  {
    if j == 0 then []
    else
      var amount := Overlap(ds, cs, i, j - 1);
      var before := RowsOf(ds, cs, i, j - 1);
      if amount > 0 then before + [Reconcile(ds[i].line, cs[j - 1].line, amount, 0)] else before
  }

  /** The rows of the first `i` debits. */
  function Rows(ds: seq<Slot>, cs: seq<Slot>, i: nat): seq<Reconcile>
    requires i <= |ds|
  {
    if i == 0 then [] else Rows(ds, cs, i - 1) + RowsOf(ds, cs, i - 1, |cs|)
  }

  /** All reconciliations between the two pools. */
  function Matching(ds: seq<Slot>, cs: seq<Slot>): seq<Reconcile> {
    Rows(ds, cs, |ds|)
  }

  /** How much of slot `i` a fund of size `funds` reaches when it fills the pool in order. */
  function Taken(pool: seq<Slot>, i: nat, funds: int): int
    requires i < |pool|
  {
    Min(Start(pool, i + 1), funds) - Min(Start(pool, i), funds)
  }

  // ─── Positions on the axis ──────────────────────────────────────────

  lemma StartStep(pool: seq<Slot>, i: nat)
    requires i < |pool|
    ensures Start(pool, i + 1) == Start(pool, i) + pool[i].amount
  {
    assert pool[..i + 1][..i] == pool[..i];
  }

  lemma {:induction false} StartMonotone(pool: seq<Slot>, i: nat, k: nat)
    requires i <= k <= |pool| && NonNegative(pool)
    ensures 0 <= Start(pool, i) <= Start(pool, k)
    decreases k
  {
    if i < k {
      StartMonotone(pool, i, k - 1);
      StartStep(pool, k - 1);
    } else if 0 < i {
      StartMonotone(pool, i - 1, i - 1);
      StartStep(pool, i - 1);
    }
  }

  lemma {:induction false} TotalOfConcat(a: seq<Slot>, b: seq<Slot>)
    ensures Total(a + b) == Total(a) + Total(b)
  {
    if b == [] {
      assert a + b == a;
    } else {
      assert (a + b)[..|a + b| - 1] == a + b[..|b| - 1];
      TotalOfConcat(a, b[..|b| - 1]);
    }
  }

  // ─── How rows accumulate ────────────────────────────────────────────

  /** Credits that do not overlap debit `i` add no rows. */
  lemma {:induction false} RowsOfTail(ds: seq<Slot>, cs: seq<Slot>, i: nat, j: nat, k: nat)
    requires i < |ds| && j <= k <= |cs|
    requires forall c: nat :: j <= c < k ==> Overlap(ds, cs, i, c) == 0
    ensures RowsOf(ds, cs, i, k) == RowsOf(ds, cs, i, j)
    decreases k
  {
    if j < k {
      RowsOfTail(ds, cs, i, j, k - 1);
    }
  }

  /** Debits that overlap no credit add no rows. */
  lemma {:induction false} RowsTail(ds: seq<Slot>, cs: seq<Slot>, i: nat, k: nat)
    requires i <= k <= |ds|
    requires forall d: nat, c: nat :: i <= d < k && c < |cs| ==> Overlap(ds, cs, d, c) == 0
    ensures Rows(ds, cs, k) == Rows(ds, cs, i)
    decreases k
  {
    if i < k {
      RowsTail(ds, cs, i, k - 1);
      RowsOfTail(ds, cs, k - 1, 0, |cs|);
    }
  }

  /** A debit interval that ends where the credits from `j` on begin does not overlap them. */
  lemma NoOverlapAfter(ds: seq<Slot>, cs: seq<Slot>, i: nat, j: nat)
    requires i < |ds| && j <= |cs| && NonNegative(cs)
    requires Start(ds, i + 1) <= Start(cs, j)
    ensures forall c: nat :: j <= c < |cs| ==> Overlap(ds, cs, i, c) == 0
  {
    forall c: nat | j <= c < |cs| ensures Overlap(ds, cs, i, c) == 0 {
      StartMonotone(cs, j, c);
    }
  }

  /** A debit interval that begins where the credits before `j` end does not overlap them. */
  lemma NoOverlapBefore(ds: seq<Slot>, cs: seq<Slot>, i: nat, j: nat)
    requires i < |ds| && j <= |cs| && NonNegative(ds) && NonNegative(cs)
    requires Start(cs, j) <= Start(ds, i)
    ensures forall c: nat :: c < j ==> Overlap(ds, cs, i, c) == 0
  {
    forall c: nat | c < j ensures Overlap(ds, cs, i, c) == 0 {
      StartMonotone(cs, c + 1, j);
    }
  }

  // ─── What the matching consumes ─────────────────────────────────────

  ghost predicate DistinctLines(ds: seq<Slot>, cs: seq<Slot>) {
    && (forall i, k :: 0 <= i < k < |ds| ==> ds[i].line != ds[k].line)
    && (forall i, k :: 0 <= i < k < |cs| ==> cs[i].line != cs[k].line)
    && (forall i, k :: 0 <= i < |ds| && 0 <= k < |cs| ==> ds[i].line != cs[k].line)
  }

  lemma {:induction false} RowShape(ds: seq<Slot>, cs: seq<Slot>, i: nat, j: nat)
    requires i < |ds| && j <= |cs|
    ensures forall r :: r in RowsOf(ds, cs, i, j) ==>
              r.amount > 0 && r.currency == 0 && r.debit == ds[i].line &&
              exists k :: 0 <= k < j && cs[k].line == r.credit
  {
    if j > 0 {
      RowShape(ds, cs, i, j - 1);
    }
  }

  /** Every row is a positive amount between a debit-pool line and a credit-pool line. */
  lemma {:induction false} MatchingShape(ds: seq<Slot>, cs: seq<Slot>, n: nat)
    requires n <= |ds|
    ensures forall r :: r in Rows(ds, cs, n) ==>
              r.amount > 0 && r.currency == 0 &&
              (exists i :: 0 <= i < n && ds[i].line == r.debit) &&
              (exists k :: 0 <= k < |cs| && cs[k].line == r.credit)
  {
    if n > 0 {
      MatchingShape(ds, cs, n - 1);
      RowShape(ds, cs, n - 1, |cs|);
      forall r | r in Rows(ds, cs, n) && r !in Rows(ds, cs, n - 1)
        ensures ds[n - 1].line == r.debit
      {
      }
    }
  }

  /** The rows of debit `i` settle its line for the part of its interval that the credits cover. */
  lemma {:induction false} RowsOfSettleDebit(ds: seq<Slot>, cs: seq<Slot>, i: nat, j: nat)
    requires i < |ds| && j <= |cs| && NonNegative(ds) && NonNegative(cs)
    ensures Settled(RowsOf(ds, cs, i, j), ds[i].line) ==
            Min(Start(ds, i + 1), Start(cs, j)) - Min(Start(ds, i), Start(cs, j))
  {
    StartMonotone(ds, i, i + 1);
    if j > 0 {
      RowsOfSettleDebit(ds, cs, i, j - 1);
      StartMonotone(cs, j - 1, j);
      SettledOfOneMore(RowsOf(ds, cs, i, j - 1),
                       Reconcile(ds[i].line, cs[j - 1].line, Overlap(ds, cs, i, j - 1), 0), ds[i].line);
    }
  }

  lemma {:induction false} RowsOfSettleCredit(ds: seq<Slot>, cs: seq<Slot>, i: nat, j: nat, k: nat)
    requires i < |ds| && j <= |cs| && k < |cs| && DistinctLines(ds, cs)
    ensures Settled(RowsOf(ds, cs, i, j), cs[k].line) == if k < j then Overlap(ds, cs, i, k) else 0
  {
    if j > 0 {
      RowsOfSettleCredit(ds, cs, i, j - 1, k);
      SettledOfOneMore(RowsOf(ds, cs, i, j - 1),
                       Reconcile(ds[i].line, cs[j - 1].line, Overlap(ds, cs, i, j - 1), 0), cs[k].line);
    }
  }

  lemma {:induction false} RowsSettleDebit(ds: seq<Slot>, cs: seq<Slot>, n: nat, i: nat)
    requires n <= |ds| && i < |ds| && NonNegative(ds) && NonNegative(cs) && DistinctLines(ds, cs)
    ensures Settled(Rows(ds, cs, n), ds[i].line) == if i < n then Taken(ds, i, Total(cs)) else 0
  {
    hide Start, Total, RowsOf, NonNegative, Overlap;
    if n > 0 {
      var own := RowsOf(ds, cs, n - 1, |cs|);
      RowsSettleDebit(ds, cs, n - 1, i);
      SettledOfConcat(Rows(ds, cs, n - 1), own, ds[i].line);
      if i == n - 1 {
        RowsOfSettleDebit(ds, cs, i, |cs|);
        WholePool(cs);
      } else {
        RowShape(ds, cs, n - 1, |cs|);
        SettledUntouched(own, ds[i].line);
      }
    }
  }

  lemma SettledOfNone(line: LineRef)
    ensures Settled([], line) == 0
  {
  }

  /** How far the debits before `n` reach into credit `k`. */
  function ReachedOf(ds: seq<Slot>, cs: seq<Slot>, n: nat, k: nat): int
    requires n <= |ds| && k < |cs|
  {
    Min(Start(cs, k + 1), Start(ds, n)) - Min(Start(cs, k), Start(ds, n))
  }

  /** A debit's overlap with a credit is what it reaches beyond the debits before it. */
  lemma OverlapIsGain(ds: seq<Slot>, cs: seq<Slot>, n: nat, k: nat)
    requires n < |ds| && k < |cs| && Start(ds, n) <= Start(ds, n + 1) && Start(cs, k) <= Start(cs, k + 1)
    ensures ReachedOf(ds, cs, n + 1, k) == ReachedOf(ds, cs, n, k) + Overlap(ds, cs, n, k)
  {
    hide Start;
  }

  lemma NothingReached(ds: seq<Slot>, cs: seq<Slot>, k: nat)
    requires k < |cs| && NonNegative(cs)
    ensures ReachedOf(ds, cs, 0, k) == 0
  {
    NothingBefore(ds);
    NothingBefore(cs);
    StartMonotone(cs, 0, k);
    StartMonotone(cs, k, k + 1);
    hide Start;
  }

  lemma {:induction false} RowsSettleCredit(ds: seq<Slot>, cs: seq<Slot>, n: nat, k: nat)
    requires n <= |ds| && k < |cs| && NonNegative(ds) && NonNegative(cs) && DistinctLines(ds, cs)
    ensures Settled(Rows(ds, cs, n), cs[k].line) == ReachedOf(ds, cs, n, k)
  {
    hide Start, Total, RowsOf, NonNegative, Overlap, ReachedOf;
    if n == 0 {
      SettledOfNone(cs[k].line);
      NothingReached(ds, cs, k);
    } else {
      RowsSettleCredit(ds, cs, n - 1, k);
      RowsOfSettleCredit(ds, cs, n - 1, |cs|, k);
      StartMonotone(ds, n - 1, n);
      StartMonotone(cs, k, k + 1);
      OverlapIsGain(ds, cs, n - 1, k);
      SettledOfConcat(Rows(ds, cs, n - 1), RowsOf(ds, cs, n - 1, |cs|), cs[k].line);
    }
  }

  /**
   The main fact about the matching: each side gives up exactly what the other side's total
   reaches when it is filled in list order.
   */
  lemma MatchingConsumes(ds: seq<Slot>, cs: seq<Slot>)
    requires NonNegative(ds) && NonNegative(cs) && DistinctLines(ds, cs)
    ensures forall i: nat :: i < |ds| ==>
              Settled(Matching(ds, cs), ds[i].line) == Taken(ds, i, Total(cs))
    ensures forall k: nat :: k < |cs| ==>
              Settled(Matching(ds, cs), cs[k].line) == Taken(cs, k, Total(ds))
  {
    assert ds[..|ds|] == ds;
    forall i: nat | i < |ds| ensures Settled(Matching(ds, cs), ds[i].line) == Taken(ds, i, Total(cs)) {
      RowsSettleDebit(ds, cs, |ds|, i);
    }
    forall k: nat | k < |cs| ensures Settled(Matching(ds, cs), cs[k].line) == Taken(cs, k, Total(ds)) {
      RowsSettleCredit(ds, cs, |ds|, k);
    }
  }

  /** No slot gives more than it has, and nothing gives a negative amount. */
  lemma TakenWithinSlot(pool: seq<Slot>, i: nat, funds: int)
    requires i < |pool| && NonNegative(pool) && funds >= 0
    ensures 0 <= Taken(pool, i, funds) <= pool[i].amount
  {
    StartMonotone(pool, i, i + 1);
    StartStep(pool, i);
  }

  /** No line of either pool is matched for more than it offers. */
  lemma MatchingGivesWithinSlots(ds: seq<Slot>, cs: seq<Slot>)
    requires NonNegative(ds) && NonNegative(cs) && DistinctLines(ds, cs)
    ensures forall i: nat :: i < |ds| ==> 0 <= Settled(Matching(ds, cs), ds[i].line) <= ds[i].amount
    ensures forall k: nat :: k < |cs| ==> 0 <= Settled(Matching(ds, cs), cs[k].line) <= cs[k].amount
  {
    MatchingConsumes(ds, cs);
    assert ds[..|ds|] == ds && cs[..|cs|] == cs;
    StartMonotone(ds, 0, |ds|);
    StartMonotone(cs, 0, |cs|);
    forall i: nat | i < |ds| ensures 0 <= Settled(Matching(ds, cs), ds[i].line) <= ds[i].amount {
      TakenWithinSlot(ds, i, Total(cs));
    }
    forall k: nat | k < |cs| ensures 0 <= Settled(Matching(ds, cs), cs[k].line) <= cs[k].amount {
      TakenWithinSlot(cs, k, Total(ds));
    }
  }

  /** First in, first out: a slot is touched only when every earlier one is used up. */
  lemma TakenInOrder(pool: seq<Slot>, i: nat, k: nat, funds: int)
    requires i < k < |pool| && NonNegative(pool) && funds >= 0
    requires Taken(pool, k, funds) > 0
    ensures Taken(pool, i, funds) == pool[i].amount
  {
    StartMonotone(pool, i, i + 1);
    StartMonotone(pool, i + 1, k);
    StartMonotone(pool, k, k + 1);
    StartStep(pool, i);
  }

  /** Funds that cover the whole pool empty every slot. */
  lemma TakenInFull(pool: seq<Slot>, i: nat, funds: int)
    requires i < |pool| && NonNegative(pool) && Total(pool) <= funds
    ensures Taken(pool, i, funds) == pool[i].amount
  {
    StartMonotone(pool, i, i + 1);
    StartMonotone(pool, i + 1, |pool|);
    assert pool[..|pool|] == pool;
    StartStep(pool, i);
  }

  /** Σ of the row amounts. */
  function Matched(rows: seq<Reconcile>): int {
    if rows == [] then 0 else Matched(rows[..|rows| - 1]) + rows[|rows| - 1].amount
  }

  lemma {:induction false} MatchedOfConcat(a: seq<Reconcile>, b: seq<Reconcile>)
    ensures Matched(a + b) == Matched(a) + Matched(b)
  {
    if b == [] {
      assert a + b == a;
    } else {
      assert (a + b)[..|a + b| - 1] == a + b[..|b| - 1];
      MatchedOfConcat(a, b[..|b| - 1]);
    }
  }

  lemma {:induction false} RowsOfMatched(ds: seq<Slot>, cs: seq<Slot>, i: nat, j: nat)
    requires i < |ds| && j <= |cs| && NonNegative(ds) && NonNegative(cs)
    ensures Matched(RowsOf(ds, cs, i, j)) ==
            Min(Start(ds, i + 1), Start(cs, j)) - Min(Start(ds, i), Start(cs, j))
  {
    StartMonotone(ds, i, i + 1);
    if j > 0 {
      RowsOfMatched(ds, cs, i, j - 1);
      StartMonotone(cs, j - 1, j);
      MatchedOfConcat(RowsOf(ds, cs, i, j - 1),
                      [Reconcile(ds[i].line, cs[j - 1].line, Overlap(ds, cs, i, j - 1), 0)]);
    }
  }

  lemma WholePool(pool: seq<Slot>)
    requires NonNegative(pool)
    ensures Start(pool, |pool|) == Total(pool) >= 0
  {
    StartMonotone(pool, 0, |pool|);
    assert pool[..|pool|] == pool;
  }

  lemma NothingBefore(pool: seq<Slot>)
    ensures Start(pool, 0) == 0
  {
  }

  lemma RowsStep(ds: seq<Slot>, cs: seq<Slot>, n: nat)
    requires n <= |ds|
    ensures if n == 0 then Matched(Rows(ds, cs, n)) == 0
            else Matched(Rows(ds, cs, n)) == Matched(Rows(ds, cs, n - 1)) + Matched(RowsOf(ds, cs, n - 1, |cs|))
  {
    if n > 0 {
      MatchedOfConcat(Rows(ds, cs, n - 1), RowsOf(ds, cs, n - 1, |cs|));
    }
  }

  lemma {:induction false} RowsMatched(ds: seq<Slot>, cs: seq<Slot>, n: nat)
    requires n <= |ds| && NonNegative(ds) && NonNegative(cs)
    ensures Matched(Rows(ds, cs, n)) == Min(Start(ds, n), Total(cs))
  {
    hide Start, Total, Rows, RowsOf, NonNegative, Matched;
    WholePool(cs);
    NothingBefore(ds);
    RowsStep(ds, cs, n);
    if n > 0 {
      RowsMatched(ds, cs, n - 1);
      RowsOfMatched(ds, cs, n - 1, |cs|);
    }
  }

  /** The matching moves as much as the poorer side has. */
  lemma MatchingTotal(ds: seq<Slot>, cs: seq<Slot>)
    requires NonNegative(ds) && NonNegative(cs)
    ensures Matched(Matching(ds, cs)) == Min(Total(ds), Total(cs))
  {
    RowsMatched(ds, cs, |ds|);
    assert ds[..|ds|] == ds;
  }
}
