/** Per-tax aggregation of document lines (`tax.rs`); a tax's id is its rank in the order of tax names. */
module Taxes {
  import opened Wrappers
  import opened Ledger
  import opened CurrencyModel
  import opened DocumentsModel
  import opened InvoiceExpansion

  datatype TaxBucket = TaxBucket(tax: TaxId, base: int, amount: int)

  predicate Occurs(lines: seq<DocLine>, t: TaxId) {
    exists i :: 0 <= i < |lines| && lines[i].tax == Some(t)
  }

  /** One bucket per tax that occurs, with the sums over its lines, among the first `n` taxes. */
  function Buckets(c: Chart, lines: seq<DocLine>, n: nat): seq<TaxBucket>
    requires TaxesKnown(c, lines) && n <= |c.taxes|
  {
    if n == 0 then []
    else
      var before := Buckets(c, lines, n - 1);
      if Occurs(lines, n - 1) then before + [TaxBucket(n - 1, BucketBase(c, lines, n - 1), BucketTax(c, lines, n - 1))]
      else before
  }

  /** What the map under construction holds after some lines. */
  ghost predicate Folded(c: Chart, lines: seq<DocLine>, buckets: map<TaxId, TaxBucket>)
    requires TaxesKnown(c, lines)
  {
    && (forall t: TaxId :: t in buckets <==> Occurs(lines, t))
    && (forall t: TaxId :: t in buckets ==> buckets[t] == TaxBucket(t, BucketBase(c, lines, t), BucketTax(c, lines, t)))
  }

  lemma {:induction false} NoLineNoBucket(c: Chart, lines: seq<DocLine>, t: TaxId)
    requires TaxesKnown(c, lines) && !Occurs(lines, t)
    ensures BucketBase(c, lines, t) == 0 && BucketTax(c, lines, t) == 0
  {
    if lines != [] {
      var rest := lines[..|lines| - 1];
      assert forall i :: 0 <= i < |rest| ==> rest[i] == lines[i];
      NoLineNoBucket(c, rest, t);
    }
  }

  /** One more line goes into its tax's bucket, which is opened if it is the first. */
  lemma OneMoreLine(c: Chart, lines: seq<DocLine>, l: DocLine, buckets: map<TaxId, TaxBucket>)
    requires TaxesKnown(c, lines) && TaxKnown(c, l) && Folded(c, lines, buckets)
    ensures TaxesKnown(c, lines + [l])
    ensures l.tax.None? ==> Folded(c, lines + [l], buckets)
    ensures l.tax.Some? ==>
              var t := l.tax.value;
              var entry := if t in buckets then buckets[t] else TaxBucket(t, 0, 0);
              Folded(c, lines + [l], buckets[t := TaxBucket(t, entry.base + Base(c, l), entry.amount + TaxAmount(c, l))])
  {
    var more := lines + [l];
    assert more[..|lines|] == lines;
    forall t: TaxId ensures Occurs(more, t) <==> Occurs(lines, t) || l.tax == Some(t) {
      if Occurs(lines, t) {
        var i :| 0 <= i < |lines| && lines[i].tax == Some(t);
        assert more[i].tax == Some(t);
      }
      if l.tax == Some(t) {
        assert more[|lines|].tax == Some(t);
      }
    }
    if l.tax.Some? && l.tax.value !in buckets {
      NoLineNoBucket(c, lines, l.tax.value);
    }
  }

  /** The fold of `aggregate_by_tax`, then its buckets in the order of the taxes. */
  method AggregateByTax(c: Chart, lines: seq<DocLine>) returns (out: seq<TaxBucket>)
    requires TaxesKnown(c, lines)
    ensures out == Buckets(c, lines, |c.taxes|)
  {
    var buckets: map<TaxId, TaxBucket> := map[];
    for i := 0 to |lines|
      invariant Folded(c, lines[..i], buckets)
    {
      var l := lines[i];
      assert lines[..i + 1] == lines[..i] + [l];
      OneMoreLine(c, lines[..i], l, buckets);
      if l.tax.Some? {
        var t := l.tax.value;
        var entry := if t in buckets then buckets[t] else TaxBucket(t, 0, 0);
        buckets := buckets[t := TaxBucket(t, entry.base + Base(c, l), entry.amount + TaxAmount(c, l))];
      }
    }
    assert lines[..|lines|] == lines;
    out := [];
    for t := 0 to |c.taxes|
      invariant out == Buckets(c, lines, t)
    {
      if t in buckets {
        out := out + [buckets[t]];
      }
    }
  }

  /** The tax amounts that get a GL line: those that amount to something. */
  function NonZero(buckets: seq<TaxBucket>): seq<int> {
    if buckets == [] then []
    else
      var before := NonZero(buckets[..|buckets| - 1]);
      if buckets[|buckets| - 1].amount == 0 then before else before + [buckets[|buckets| - 1].amount]
  }

  /**
   Nothing is lost by aggregating: the buckets worth a GL line are the tax lines of the expansion, and
   they add up to the document's tax total.
   */
  lemma BucketsCarryAllTax(c: Chart, lines: seq<DocLine>)
    requires TaxesKnown(c, lines)
    ensures NonZero(Buckets(c, lines, |c.taxes|)) == BucketAmounts(c, lines, |c.taxes|)
    ensures Sum(NonZero(Buckets(c, lines, |c.taxes|))) == TaxTotal(c, lines)
  {
    BucketsAreAmounts(c, lines, |c.taxes|);
    BucketsSum(c, lines);
  }

  lemma {:induction false} BucketsAreAmounts(c: Chart, lines: seq<DocLine>, n: nat)
    requires TaxesKnown(c, lines) && n <= |c.taxes|
    ensures NonZero(Buckets(c, lines, n)) == BucketAmounts(c, lines, n)
  {
    if n > 0 {
      BucketsAreAmounts(c, lines, n - 1);
      if Occurs(lines, n - 1) {
        var before := Buckets(c, lines, n - 1);
        assert Buckets(c, lines, n)[..|before|] == before;
      } else {
        NoLineNoBucket(c, lines, n - 1);
      }
    }
  }
}
