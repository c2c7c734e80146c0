/** The ageing report (`reports.rs`): configured buckets become columns that partition the open documents. */
module Ageing {
  import opened Wrappers
  import opened Ledger

  // ─── The configured buckets ─────────────────────────────────────────

  predicate Increasing(xs: seq<int>) {
    forall i, k :: 0 <= i < k < |xs| ==> xs[i] < xs[k]
  }

  /** Adds a bound to a sorted list unless it is there already. */
  function Insert(sorted: seq<int>, x: int): seq<int> {
    if sorted == [] || sorted[|sorted| - 1] < x then sorted + [x]
    else if sorted[|sorted| - 1] == x then sorted
    else Insert(sorted[..|sorted| - 1], x) + [sorted[|sorted| - 1]]
  }

  /** The positive entries, sorted, each once. */
  function SortedPositive(raw: seq<int>): seq<int> {
    if raw == [] then []
    else
      var before := SortedPositive(raw[..|raw| - 1]);
      if raw[|raw| - 1] > 0 then Insert(before, raw[|raw| - 1]) else before
  }

  /** `aging_buckets`: the configured bounds, or 30/60/90/120 when none is usable. */
  function AgingBuckets(raw: seq<int>): seq<int> {
    if SortedPositive(raw) == [] then [30, 60, 90, 120] else SortedPositive(raw)
  }

  lemma {:induction false} InsertSorts(sorted: seq<int>, x: int)
    requires Increasing(sorted)
    ensures Increasing(Insert(sorted, x)) && forall y :: y in Insert(sorted, x) <==> y in sorted || y == x
  {
    if !(sorted == [] || sorted[|sorted| - 1] < x) {
      var rest, last := sorted[..|sorted| - 1], sorted[|sorted| - 1];
      assert sorted == rest + [last];
      if last != x {
        InsertSorts(rest, x);
        var inner := Insert(rest, x);
        forall i | 0 <= i < |inner| ensures inner[i] < last {
          assert inner[i] in inner;
        }
      }
    }
  }

  /** Sorting and removing duplicates keeps exactly the positive entries, in increasing order. */
  lemma {:induction false} SortedPositiveFacts(raw: seq<int>)
    ensures Increasing(SortedPositive(raw)) && forall y :: y in SortedPositive(raw) <==> y in raw && y > 0
  {
    if raw != [] {
      var rest, last := raw[..|raw| - 1], raw[|raw| - 1];
      SortedPositiveFacts(rest);
      InsertSorts(SortedPositive(rest), last);
      assert raw == rest + [last];
    }
  }

  ghost predicate Bounds(buckets: seq<int>) {
    |buckets| > 0 && Increasing(buckets) && buckets[0] > 0
  }

  lemma BucketsAreBounds(raw: seq<int>)
    ensures Bounds(AgingBuckets(raw))
  {
    SortedPositiveFacts(raw);
    var xs := SortedPositive(raw);
    if xs != [] {
      assert xs[0] in xs;
    }
  }

  // ─── The columns ────────────────────────────────────────────────────

  /** Days overdue from `lo` to `hi`, both inclusive. */
  datatype Range = Range(lo: int, hi: int)

  function Ranges(buckets: seq<int>): (r: seq<Range>)
    ensures |r| == |buckets|
  {
    seq(|buckets|, i requires 0 <= i < |buckets| => Range(if i == 0 then 1 else buckets[i - 1] + 1, buckets[i]))
  }

  /** The loop that builds the bucket columns, and their labels, from the configured bounds. */
  method BucketColumns(buckets: seq<int>) returns (out: seq<Range>)
    ensures out == Ranges(buckets)
  {
    out := [];
    var lo := 1;
    for i := 0 to |buckets|
      invariant |out| == i && forall k :: 0 <= k < i ==> out[k] == Ranges(buckets)[k]
      invariant lo == if i == 0 then 1 else buckets[i - 1] + 1
    {
      out := out + [Range(lo, buckets[i])];
      lo := buckets[i] + 1;
    }
  }

  /** An open document: its due date, if it has one, and what is open on it. */
  datatype OpenDocument = OpenDocument(due: Option<Date>, residual: int)

  /** Column 0 is what is not yet due, the last column what is older than every bound. */
  predicate InColumn(d: OpenDocument, today: Date, buckets: seq<int>, column: nat)
    requires |buckets| > 0 && column <= |buckets| + 1
  {
    if column == 0 then d.due.None? || d.due.value >= today
    else
      d.due.Some? &&
      var days := today - d.due.value;
      if column <= |buckets| then Ranges(buckets)[column - 1].lo <= days <= Ranges(buckets)[column - 1].hi
      else days > buckets[|buckets| - 1]
  }

  /** The first bound that covers a number of days. */
  function FirstCovering(buckets: seq<int>, days: int, from: nat := 0): (r: nat)
    requires from <= |buckets|
    ensures from <= r <= |buckets|
    ensures r < |buckets| ==> days <= buckets[r]
    ensures forall i :: from <= i < r ==> buckets[i] < days
    decreases |buckets| - from
  {
    if from == |buckets| || days <= buckets[from] then from else FirstCovering(buckets, days, from + 1)
  }

  function ColumnOf(d: OpenDocument, today: Date, buckets: seq<int>): (r: nat)
    ensures r <= |buckets| + 1
  {
    if d.due.None? || d.due.value >= today then 0 else 1 + FirstCovering(buckets, today - d.due.value)
  }

  /** With increasing positive bounds a document stands in one column. */
  lemma OneColumnOf(d: OpenDocument, today: Date, buckets: seq<int>, column: nat)
    requires Bounds(buckets) && column <= |buckets| + 1
    ensures InColumn(d, today, buckets, column) <==> column == ColumnOf(d, today, buckets)
  {
    if d.due.Some? && d.due.value < today {
      var k := FirstCovering(buckets, today - d.due.value);
      if 0 < k {
        assert buckets[k - 1] < today - d.due.value;
      }
    }
  }

  /** Every open document stands in exactly one column, whatever is configured. */
  lemma OneColumn(d: OpenDocument, today: Date, raw: seq<int>, column: nat)
    requires column <= |AgingBuckets(raw)| + 1
    ensures |AgingBuckets(raw)| > 0
    ensures InColumn(d, today, AgingBuckets(raw), column) <==> column == ColumnOf(d, today, AgingBuckets(raw))
  {
    BucketsAreBounds(raw);
    OneColumnOf(d, today, AgingBuckets(raw), column);
  }

  /**
   The days on the bounds. What is due today, or has no due date, is not yet overdue; one day later it
   stands in the first column. A document exactly as many days overdue as a bound still stands in that
   bound's column, and one day later in the next.
   */
  lemma BoundDays(d: OpenDocument, today: Date, raw: seq<int>, k: nat)
    requires k < |AgingBuckets(raw)|
    ensures (d.due.None? || d.due.value >= today) <==> ColumnOf(d, today, AgingBuckets(raw)) == 0
    ensures d.due == Some(today - 1) ==> ColumnOf(d, today, AgingBuckets(raw)) == 1
    ensures d.due == Some(today - AgingBuckets(raw)[k]) ==> ColumnOf(d, today, AgingBuckets(raw)) == k + 1
    ensures d.due == Some(today - AgingBuckets(raw)[k] - 1) ==> ColumnOf(d, today, AgingBuckets(raw)) == k + 2
  {
    BucketsAreBounds(raw);
    var buckets := AgingBuckets(raw);
    assert buckets[0] <= buckets[k];
    hide AgingBuckets;
    if d.due.Some? && d.due.value < today {
      var first := FirstCovering(buckets, today - d.due.value);
      if first < |buckets| && first < k {
        assert buckets[first] < buckets[k];
      }
      if k + 1 < |buckets| {
        assert buckets[k] < buckets[k + 1];
      }
    }
  }

  /** Without a usable bound the columns are 30, 60, 90 and 120 days; otherwise they are the positive entries. */
  lemma BucketsAre(raw: seq<int>)
    ensures (forall x :: x in raw ==> x <= 0) ==> AgingBuckets(raw) == [30, 60, 90, 120]
    ensures (exists x :: x in raw && x > 0) ==>
              Increasing(AgingBuckets(raw)) && forall y :: y in AgingBuckets(raw) <==> y in raw && y > 0
  {
    SortedPositiveFacts(raw);
    var xs := SortedPositive(raw);
    if xs != [] {
      assert xs[0] in xs;
    }
  }

  function ColumnTotal(docs: seq<OpenDocument>, today: Date, buckets: seq<int>, column: nat): int
    requires |buckets| > 0 && column <= |buckets| + 1
  {
    if docs == [] then 0
    else
      var d := docs[|docs| - 1];
      ColumnTotal(docs[..|docs| - 1], today, buckets, column) + if InColumn(d, today, buckets, column) then d.residual else 0
  }

  /** Σ of the first `n` columns. */
  function ColumnsTotal(docs: seq<OpenDocument>, today: Date, buckets: seq<int>, n: nat): int
    requires |buckets| > 0 && n <= |buckets| + 2
  {
    if n == 0 then 0 else ColumnsTotal(docs, today, buckets, n - 1) + ColumnTotal(docs, today, buckets, n - 1)
  }

  function TotalOpen(docs: seq<OpenDocument>): int {
    if docs == [] then 0 else TotalOpen(docs[..|docs| - 1]) + docs[|docs| - 1].residual
  }

  lemma {:induction false} OneDocumentMore(docs: seq<OpenDocument>, today: Date, buckets: seq<int>, n: nat)
    requires Bounds(buckets) && n <= |buckets| + 2 && docs != []
    ensures var d := docs[|docs| - 1];
            ColumnsTotal(docs, today, buckets, n) ==
            ColumnsTotal(docs[..|docs| - 1], today, buckets, n) + if ColumnOf(d, today, buckets) < n then d.residual else 0
  {
    if n > 0 {
      OneDocumentMore(docs, today, buckets, n - 1);
      OneColumnOf(docs[|docs| - 1], today, buckets, n - 1);
    }
  }

  lemma {:induction false} ColumnsAddUp(docs: seq<OpenDocument>, today: Date, buckets: seq<int>)
    requires Bounds(buckets)
    ensures ColumnsTotal(docs, today, buckets, |buckets| + 2) == TotalOpen(docs)
  {
    if docs == [] {
      NoDocuments(today, buckets, |buckets| + 2);
    } else {
      ColumnsAddUp(docs[..|docs| - 1], today, buckets);
      OneDocumentMore(docs, today, buckets, |buckets| + 2);
    }
  }

  /** The columns add up to the total of the open documents, whatever bounds are configured. */
  lemma ColumnsPartition(docs: seq<OpenDocument>, today: Date, raw: seq<int>)
    ensures |AgingBuckets(raw)| > 0
    ensures ColumnsTotal(docs, today, AgingBuckets(raw), |AgingBuckets(raw)| + 2) == TotalOpen(docs)
  {
    BucketsAreBounds(raw);
    ColumnsAddUp(docs, today, AgingBuckets(raw));
  }

  lemma {:induction false} NoDocuments(today: Date, buckets: seq<int>, n: nat)
    requires |buckets| > 0 && n <= |buckets| + 2
    ensures ColumnsTotal([], today, buckets, n) == 0
  {
    if n > 0 {
      NoDocuments(today, buckets, n - 1);
    }
  }
}
