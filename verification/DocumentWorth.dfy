/** What the lines of a document are worth: the header and the expansion, from quantity and price alone. */
module DocumentWorth {
  import opened Wrappers
  import opened Rounding
  import opened Ledger
  import opened CurrencyModel
  import opened DocumentsModel

  /** `v` sen is quantity × price, both with four decimals, rounded to the nearest sen with ties to even. */
  ghost predicate IsWorth(l: DocLine, v: int) {
    Nearest(l.quantity * l.price, 1000000, v)
  }

  /** `worth` lists what each line is worth. */
  ghost predicate AreWorth(lines: seq<DocLine>, worth: seq<int>) {
    |worth| == |lines| && forall i :: 0 <= i < |lines| ==> IsWorth(lines[i], worth[i])
  }

  /** The part of `v` that is net of a tax: all of it without one. */
  function NetPart(c: Chart, tax: Option<TaxId>, v: int): int {
    if tax.Some? && tax.value < |c.taxes| then c.taxes[tax.value].base(v) else v
  }

  function TaxPart(c: Chart, tax: Option<TaxId>, v: int): int {
    if tax.Some? && tax.value < |c.taxes| then c.taxes[tax.value].tax(v) else 0
  }

  /** Σ of the net parts. */
  function NetSum(c: Chart, lines: seq<DocLine>, worth: seq<int>): int
    requires |worth| == |lines|
  {
    if lines == [] then 0
    else
      var n := |lines| - 1;
      NetSum(c, lines[..n], worth[..n]) + NetPart(c, lines[n].tax, worth[n])
  }

  /** Σ of the tax parts: of every line, or of the lines with tax `only`. */
  function TaxSum(c: Chart, lines: seq<DocLine>, worth: seq<int>, only: Option<TaxId>): int
    requires |worth| == |lines|
  {
    if lines == [] then 0
    else
      var n := |lines| - 1;
      TaxSum(c, lines[..n], worth[..n], only) +
      if only.None? || lines[n].tax == only then TaxPart(c, lines[n].tax, worth[n]) else 0
  }

  /** Base and tax of a line are its tax's functions of what it is worth. */
  lemma LineIsWorth(c: Chart, l: DocLine, v: int)
    requires TaxKnown(c, l) && IsWorth(l, v)
    ensures Base(c, l) == NetPart(c, l.tax, v) && TaxAmount(c, l) == TaxPart(c, l.tax, v)
  {
    NearestIsUnique(l.quantity * l.price, 1000000, v);
  }

  lemma WorthOfMost(lines: seq<DocLine>, worth: seq<int>)
    requires AreWorth(lines, worth) && lines != []
    ensures |worth| == |lines|
    ensures AreWorth(lines[..|lines| - 1], worth[..|lines| - 1]) && IsWorth(lines[|lines| - 1], worth[|lines| - 1])
  {
    hide IsWorth;
  }

  lemma {:induction false} SumsAreWorth(c: Chart, lines: seq<DocLine>, worth: seq<int>)
    requires TaxesKnown(c, lines) && AreWorth(lines, worth)
    ensures Untaxed(c, lines) == NetSum(c, lines, worth) && TaxTotal(c, lines) == TaxSum(c, lines, worth, None)
  {
    hide IsWorth, AreWorth, Base, TaxAmount;
    if lines != [] {
      var n := |lines| - 1;
      WorthOfMost(lines, worth);
      SumsAreWorth(c, lines[..n], worth[..n]);
      LineIsWorth(c, lines[n], worth[n]);
    } else {
      NoWorth(worth);
    }
  }

  lemma NoWorth(worth: seq<int>)
    requires AreWorth([], worth)
    ensures worth == []
  {
  }

  lemma {:induction false} BucketIsWorth(c: Chart, lines: seq<DocLine>, worth: seq<int>, t: TaxId)
    requires TaxesKnown(c, lines) && AreWorth(lines, worth)
    ensures BucketTax(c, lines, t) == TaxSum(c, lines, worth, Some(t))
  {
    hide IsWorth, AreWorth, Base, TaxAmount;
    if lines != [] {
      var n := |lines| - 1;
      WorthOfMost(lines, worth);
      BucketIsWorth(c, lines[..n], worth[..n], t);
      LineIsWorth(c, lines[n], worth[n]);
    } else {
      NoWorth(worth);
    }
  }

  /**
   The header of a document, from quantities and prices: net amounts and taxes are summed line by line
   over the rounded line values, and refused exactly when a line names an unknown tax.
   */
  lemma HeaderIsWorth(c: Chart, lines: seq<DocLine>, worth: seq<int>)
    requires AreWorth(lines, worth)
    ensures DocumentTotals(c, lines).Ok? <==> forall i :: 0 <= i < |lines| && lines[i].tax.Some? ==> lines[i].tax.value < |c.taxes|
    ensures DocumentTotals(c, lines).Ok? ==>
              var t := DocumentTotals(c, lines).value;
              && t.untaxed == NetSum(c, lines, worth)
              && t.tax == TaxSum(c, lines, worth, None)
              && t.total == t.untaxed + t.tax
  {
    assert TaxesKnown(c, lines) <==> forall i :: 0 <= i < |lines| && lines[i].tax.Some? ==> lines[i].tax.value < |c.taxes|;
    hide AreWorth;
    if TaxesKnown(c, lines) {
      SumsAreWorth(c, lines, worth);
    }
  }

  // ─── The tax lines ──────────────────────────────────────────────────

  /** How many of the first `n` taxes amount to something on these lines. */
  function TaxesCharged(c: Chart, lines: seq<DocLine>, worth: seq<int>, n: nat): nat
    requires |worth| == |lines|
  {
    if n == 0 then 0 else TaxesCharged(c, lines, worth, n - 1) + if TaxSum(c, lines, worth, Some(n - 1)) != 0 then 1 else 0
  }

  lemma {:induction false} TaxLinesCount(c: Chart, terms: Terms, lines: seq<DocLine>, worth: seq<int>, n: nat)
    requires n <= |c.taxes| && TaxesKnown(c, lines) && TaxAccountsKnown(c, lines, n) && AreWorth(lines, worth)
    ensures |TaxLines(c, terms, lines, n)| == TaxesCharged(c, lines, worth, n)
  {
    hide SideLine, BucketTax, ToMyr, IsWorth, TaxSum;
    if n > 0 {
      TaxLinesCount(c, terms, lines, worth, n - 1);
      BucketIsWorth(c, lines, worth, n - 1);
    }
  }

  lemma {:induction false} TaxLineAt(c: Chart, terms: Terms, lines: seq<DocLine>, worth: seq<int>, n: nat, t: TaxId)
    requires n <= |c.taxes| && TaxesKnown(c, lines) && TaxAccountsKnown(c, lines, n) && AreWorth(lines, worth)
    requires t < n && TaxSum(c, lines, worth, Some(t)) != 0
    ensures TaxAccount(c, t).Some? && TaxesCharged(c, lines, worth, t) < |TaxLines(c, terms, lines, n)|
    ensures TaxLines(c, terms, lines, n)[TaxesCharged(c, lines, worth, t)] ==
            SideLine(TaxAccount(c, t).value, !CounterpartIsDebit(terms.kind),
                     ToMyr(TaxSum(c, lines, worth, Some(t)), terms.rate), terms.currency, TaxSum(c, lines, worth, Some(t)))
  {
    hide SideLine, BucketTax, ToMyr, IsWorth, TaxSum, TaxAccount;
    TaxLinesCount(c, terms, lines, worth, n - 1);
    BucketIsWorth(c, lines, worth, t);
    BucketIsWorth(c, lines, worth, n - 1);
    if t < n - 1 {
      TaxLineAt(c, terms, lines, worth, n - 1, t);
    }
  }
}
