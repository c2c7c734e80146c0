/** Documents (`documents.rs`): totals, expansion into GL lines, posting, and the refresh of open items. */
module Documents {
  import opened Wrappers
  import opened Ledger
  import opened Tables
  import opened ServiceModel
  import opened CurrencyModel
  import opened DocumentsModel
  import opened Taxes
  import opened InvoiceExpansion
  import Service

  // ─── Totals ─────────────────────────────────────────────────────────

  lemma TotalsStep(c: Chart, lines: seq<DocLine>, i: nat)
    requires i < |lines| && TaxesKnown(c, lines[..i + 1])
    ensures TaxesKnown(c, lines[..i]) && TaxKnown(c, lines[i])
    ensures Untaxed(c, lines[..i + 1]) == Untaxed(c, lines[..i]) + Base(c, lines[i])
    ensures TaxTotal(c, lines[..i + 1]) == TaxTotal(c, lines[..i]) + TaxAmount(c, lines[i])
  {
    var more := lines[..i + 1];
    assert more[..i] == lines[..i] && more[i] == lines[i];
    assert forall k :: 0 <= k < i ==> lines[..i][k] == more[k];
  }

  method ComputeDocumentTotals(c: Chart, lines: seq<DocLine>) returns (r: Result<Totals>)
    ensures r == DocumentTotals(c, lines)
  {
    var untaxed, tax := 0, 0;
    for i := 0 to |lines|
      invariant TaxesKnown(c, lines[..i])
      invariant untaxed == Untaxed(c, lines[..i]) && tax == TaxTotal(c, lines[..i])
    {
      var l := lines[i];
      var gross := Gross(l);
      if l.tax.Some? {
        if l.tax.value >= |c.taxes| {
          assert !TaxKnown(c, lines[i]);
          return Err(UnknownTax);
        }
        assert lines[..i + 1] == lines[..i] + [l];
        TotalsStep(c, lines, i);
        untaxed := untaxed + c.taxes[l.tax.value].base(gross);
        tax := tax + c.taxes[l.tax.value].tax(gross);
      } else {
        assert lines[..i + 1] == lines[..i] + [l];
        TotalsStep(c, lines, i);
        untaxed := untaxed + gross;
      }
    }
    assert lines[..|lines|] == lines;
    return Ok(Totals(untaxed, tax, untaxed + tax));
  }

  method CreateInvoice(db: Database, inv: NewInvoice) returns (r: Result<MoveId>)
    modifies db`moves
    ensures Reply(db.View(), r) == DocumentsModel.CreateInvoice(db.chart, old(db.View()), inv)
  {
    if !IsDocument(inv.kind) {
      return Err(NotADocument);
    }
    if inv.lines == [] {
      return Err(NoLines);
    }
    var journal := if inv.journal.Some? then inv.journal.value else if IsCustomer(inv.kind) then "SAL" else "PUR";
    if journal !in db.chart.journals {
      return Err(UnknownJournal);
    }
    var totals := ComputeDocumentTotals(db.chart, inv.lines);
    if totals.Err? {
      return Err(totals.error);
    }
    if totals.value.total <= 0 {
      return Err(TotalNotPositive);
    }
    for i := 0 to |inv.lines|
      invariant forall k :: 0 <= k < i ==> inv.lines[k].quantity > 0
    {
      if inv.lines[i].quantity <= 0 {
        return Err(RowRejected);
      }
    }
    var id := db.Insert(InvoiceRow(inv, journal, totals.value));
    return Ok(id);
  }

  method RefreshDocumentTotals(db: Database, id: MoveId) returns (r: Result<()>)
    modifies db`moves
    ensures Reply(db.View(), r) == DocumentsModel.RefreshDocumentTotals(db.chart, old(db.View()), id)
  {
    if id >= |db.moves| || !db.moves[id].stage.Draft? {
      return Ok(());
    }
    var totals := ComputeDocumentTotals(db.chart, db.moves[id].docLines);
    if totals.Err? {
      return Err(totals.error);
    }
    db.Update(id, db.moves[id].(untaxed := totals.value.untaxed, tax := totals.value.tax, total := totals.value.total));
    return Ok(());
  }

  // ─── Expansion ──────────────────────────────────────────────────────

  lemma BaseStep(c: Chart, terms: Terms, lines: seq<DocLine>, i: nat)
    requires i < |lines| && TaxesKnown(c, lines[..i + 1]) && LineAccountsKnown(c, terms.kind, lines[..i + 1])
    ensures TaxesKnown(c, lines[..i]) && LineAccountsKnown(c, terms.kind, lines[..i])
    ensures TaxKnown(c, lines[i]) && LineAccount(c, terms.kind, lines[i]).Some?
    ensures BaseLines(c, terms, lines[..i + 1]) == BaseLines(c, terms, lines[..i]) +
            [SideLine(LineAccount(c, terms.kind, lines[i]).value, !CounterpartIsDebit(terms.kind),
                      ToMyr(Base(c, lines[i]), terms.rate), terms.currency, Base(c, lines[i]))]
  {
    var more := lines[..i + 1];
    assert more[..i] == lines[..i] && more[i] == lines[i];
    assert forall k :: 0 <= k < i ==> lines[..i][k] == more[k];
  }

  /** One income or expense line per document line, and their sum in MYR. */
  method ExpandLines(c: Chart, terms: Terms, lines: seq<DocLine>) returns (r: Result<seq<Line>>, myr: int)
    requires TaxesKnown(c, lines)
    ensures if LineAccountsKnown(c, terms.kind, lines) then r == Ok(BaseLines(c, terms, lines)) else r == Err(NoAccount)
    ensures r.Ok? ==> myr == Gl(r.value)
  {
    var out: seq<Line> := [];
    myr := 0;
    var side := !CounterpartIsDebit(terms.kind);
    for i := 0 to |lines|
      invariant LineAccountsKnown(c, terms.kind, lines[..i]) && TaxesKnown(c, lines[..i])
      invariant out == BaseLines(c, terms, lines[..i]) && myr == Gl(out)
    {
      var l := lines[i];
      var account := if l.account.Some? then l.account else c.DefaultAccount(LineRole(terms.kind));
      if account.None? {
        assert LineAccount(c, terms.kind, lines[i]).None?;
        return Err(NoAccount), 0;
      }
      assert lines[..i + 1] == lines[..i] + [l];
      BaseStep(c, terms, lines, i);
      var base := Base(c, l);
      var baseMyr := ToMyr(base, terms.rate);
      var line := SideLine(account.value, side, baseMyr, terms.currency, base);
      SumsOfOneMore(out, line, {});
      out := out + [line];
      myr := myr + baseMyr;
    }
    assert lines[..|lines|] == lines;
    return Ok(out), myr;
  }

  /** The tax lines that the first `n` taxes need, as the aggregation delivers them. */
  lemma TaxStep(c: Chart, terms: Terms, lines: seq<DocLine>, n: nat)
    requires TaxesKnown(c, lines) && n < |c.taxes|
    ensures !Occurs(lines, n) ==> BucketTax(c, lines, n) == 0
    ensures TaxAccountsKnown(c, lines, n + 1) <==>
            TaxAccountsKnown(c, lines, n) && (BucketTax(c, lines, n) != 0 ==> TaxAccount(c, n).Some?)
  {
    if !Occurs(lines, n) {
      NoLineNoBucket(c, lines, n);
    }
  }

  /** One GL line per tax that amounts to something, and their sum in MYR. */
  method ExpandTaxes(c: Chart, terms: Terms, lines: seq<DocLine>) returns (r: Result<seq<Line>>, myr: int)
    requires TaxesKnown(c, lines)
    ensures if TaxAccountsKnown(c, lines, |c.taxes|) then r == Ok(TaxLines(c, terms, lines, |c.taxes|)) else r == Err(NoAccount)
    ensures r.Ok? ==> myr == Gl(r.value)
  {
    var buckets := AggregateByTax(c, lines);
    var out: seq<Line> := [];
    myr := 0;
    var side := !CounterpartIsDebit(terms.kind);
    var k := 0;
    for t := 0 to |c.taxes|
      invariant k <= |buckets| && buckets[..k] == Buckets(c, lines, t)
      invariant TaxAccountsKnown(c, lines, t)
      invariant out == TaxLines(c, terms, lines, t) && myr == Gl(out)
    {
      TaxStep(c, terms, lines, t);
      BucketAt(c, lines, t, k);
      if k < |buckets| && buckets[k].tax == t {
        var bucket := buckets[k];
        k := k + 1;
        if bucket.amount != 0 {
          var account := if c.taxes[t].account.Some? then c.taxes[t].account else c.DefaultAccount(TaxRole);
          if account.None? {
            assert !TaxAccountsKnown(c, lines, |c.taxes|) by {
              assert TaxAccount(c, t).None? && BucketTax(c, lines, t) != 0;
            }
            return Err(NoAccount), 0;
          }
          var taxMyr := ToMyr(bucket.amount, terms.rate);
          var line := SideLine(account.value, side, taxMyr, terms.currency, bucket.amount);
          SumsOfOneMore(out, line, {});
          out := out + [line];
          myr := myr + taxMyr;
        }
      }
    }
    return Ok(out), myr;
  }

  /** The next bucket belongs to tax `t` exactly when the tax occurs. */
  lemma {:induction false} BucketAt(c: Chart, lines: seq<DocLine>, t: nat, k: nat)
    requires TaxesKnown(c, lines) && t < |c.taxes|
    requires k <= |Buckets(c, lines, |c.taxes|)| && Buckets(c, lines, |c.taxes|)[..k] == Buckets(c, lines, t)
    ensures var buckets := Buckets(c, lines, |c.taxes|);
            if Occurs(lines, t) then
              k < |buckets| && buckets[k] == TaxBucket(t, BucketBase(c, lines, t), BucketTax(c, lines, t)) &&
              buckets[..k + 1] == Buckets(c, lines, t + 1)
            else (k < |buckets| ==> buckets[k].tax != t) && Buckets(c, lines, t + 1) == Buckets(c, lines, t)
  {
    BucketsExtend(c, lines, t + 1, |c.taxes|);
    BucketsBelow(c, lines, t, |c.taxes|, k);
  }

  lemma {:induction false} BucketsExtend(c: Chart, lines: seq<DocLine>, t: nat, n: nat)
    requires TaxesKnown(c, lines) && t <= n <= |c.taxes|
    ensures Buckets(c, lines, t) <= Buckets(c, lines, n)
  {
    if t < n {
      BucketsExtend(c, lines, t, n - 1);
    }
  }

  /** Buckets beyond those of the first `t` taxes belong to later taxes. */
  lemma {:induction false} BucketsBelow(c: Chart, lines: seq<DocLine>, t: nat, n: nat, k: nat)
    requires TaxesKnown(c, lines) && t <= n <= |c.taxes| && k == |Buckets(c, lines, t)|
    ensures k <= |Buckets(c, lines, n)|
    ensures forall i :: k <= i < |Buckets(c, lines, n)| ==> t <= Buckets(c, lines, n)[i].tax < n
    ensures !Occurs(lines, t) ==> forall i :: k <= i < |Buckets(c, lines, n)| ==> Buckets(c, lines, n)[i].tax != t
    decreases n
  {
    if t < n {
      BucketsBelow(c, lines, t, n - 1, k);
    }
  }

  /** The GL lines of a document: the counterpart first, patched with the sum of the others. */
  method ExpandDocument(c: Chart, terms: Terms, partner: Option<PartnerId>, lines: seq<DocLine>, total: int)
    returns (r: Result<seq<Line>>)
    requires TaxesKnown(c, lines)
    ensures r == Expansion(c, terms, partner, lines, total)
  {
    var counterpart := c.PartnerAccount(partner, CounterpartRole(terms.kind));
    if counterpart.None? {
      return Err(NoAccount);
    }
    var bases, baseMyr := ExpandLines(c, terms, lines);
    if bases.Err? {
      return Err(bases.error);
    }
    var taxes, taxMyr := ExpandTaxes(c, terms, lines);
    if taxes.Err? {
      return Err(taxes.error);
    }
    SumsOfConcat(bases.value, taxes.value, {});
    var components := bases.value + taxes.value;
    return Ok([SideLine(counterpart.value, CounterpartIsDebit(terms.kind), baseMyr + taxMyr, terms.currency, total)] + components);
  }

  /** Whether the row constraints accept every line. */
  method AllRowsAccepted(c: Chart, lines: seq<Line>) returns (ok: bool)
    ensures ok <==> forall i :: 0 <= i < |lines| ==> RowAccepted(c, lines[i])
  {
    ok := true;
    for i := 0 to |lines|
      invariant ok <==> forall k :: 0 <= k < i ==> RowAccepted(c, lines[k])
    {
      if !RowAccepted(c, lines[i]) {
        ok := false;
      }
    }
  }

  /** Posts the expanded draft, then sets what a foreign-currency document owes in its own currency. */
  method PostExpanded(db: Database, id: MoveId, terms: Terms, lines: seq<Line>, total: int) returns (r: Result<nat>)
    requires lines != []
    modifies db`moves, db`nextNumber
    ensures Reply(db.View(), r) == DocumentsModel.PostExpanded(old(db.View()), id, terms, lines, total)
  {
    r := Service.PostMove(db, id);
    if r.Ok? && terms.currency.Some? && id < |db.moves| {
      db.Update(id, db.moves[id].(residual := Gl(lines[1..]), residualCurrency := Some(total)));
    }
  }

  /** From refreshed totals to the posted document. */
  method ExpandAndPost(db: Database, id: MoveId, t: Totals) returns (r: Result<nat>)
    requires id < |db.moves| && TaxesKnown(db.chart, db.moves[id].docLines)
    modifies db`moves, db`nextNumber
    ensures Reply(db.View(), r) == PostWithTotals(db.chart, old(db.View()), id, t)
  {
    hide DocumentsModel.PostExpanded, Expansion, TermsOf, RowAccepted;
    var m := WithTotals(db.moves[id], t);
    db.Update(id, m);
    if m.total <= 0 {
      return Err(TotalNotPositive);
    }
    if db.chart.PartnerAccount(m.partner, CounterpartRole(m.kind)).None? {
      return Err(NoAccount);
    }
    db.Update(id, m.(lines := []));
    assert db.moves == old(db.moves)[id := m.(lines := [])];
    var terms := TermsOf(db.chart, m);
    if terms.None? {
      return Err(NoRate);
    }
    var lines := ExpandDocument(db.chart, terms.value, m.partner, m.docLines, m.total);
    if lines.Err? {
      return Err(lines.error);
    }
    var accepted := AllRowsAccepted(db.chart, lines.value);
    if !accepted {
      return Err(RowRejected);
    }
    db.Update(id, ExpandedRow(m, terms.value, lines.value));
    assert db.moves == old(db.moves)[id := ExpandedRow(m, terms.value, lines.value)];
    ExpansionIsNotEmpty(db.chart, terms.value, m.partner, m.docLines, m.total);
    r := PostExpanded(db, id, terms.value, lines.value, m.total);
  }

  method PostInvoice(db: Database, id: MoveId) returns (r: Result<nat>)
    modifies db`moves, db`nextNumber
    ensures Reply(db.View(), r) == DocumentsModel.PostInvoice(db.chart, old(db.View()), id)
  {
    hide PostWithTotals;
    if id >= |db.moves| {
      return Err(NotFound);
    }
    if !db.moves[id].stage.Draft? {
      return Err(NotDraft);
    }
    if !IsDocument(db.moves[id].kind) {
      return Err(NotADocument);
    }
    if db.taxLock.Some? && db.moves[id].date <= db.taxLock.value {
      return Err(TaxLocked);
    }
    var totals := ComputeDocumentTotals(db.chart, db.moves[id].docLines);
    if totals.Err? {
      return Err(totals.error);
    }
    r := ExpandAndPost(db, id, totals.value);
  }

  // ─── Open items ─────────────────────────────────────────────────────

  method FlagReconciled(c: Chart, lines: seq<Line>) returns (out: seq<Line>)
    ensures out == Flag(c, lines, true)
  {
    out := [];
    for i := 0 to |lines|
      invariant |out| == i && forall k :: 0 <= k < i ==> out[k] == Flag(c, lines, true)[k]
    {
      out := out + [if c.Reconcilable(lines[i].account) then lines[i].(reconciled := true) else lines[i]];
    }
  }

  /** Recomputes a move's residual, payment state and flags from its reconciliations. */
  method RefreshPaymentState(db: Database, id: MoveId)
    modifies db`moves
    ensures db.View() == DocumentsModel.RefreshPaymentState(db.chart, old(db.View()), id)
  {
    if id >= |db.moves| {
      return;
    }
    var m := db.moves[id];
    var counterpart := OpenOf(db.chart, db.recs, id, m);
    if counterpart.None? {
      return;
    }
    var open := counterpart.value.amount;
    if m.rate.Some? {
      var openCurrency := Max(0, m.total - SettledCurrency(db.recs, counterpart.value.line));
      open := ToMyr(openCurrency, m.rate.value);
      var state := if openCurrency <= 0 then Paid else if openCurrency < m.total then Partial else NotPaid;
      m := m.(residual := Max(0, open), residualCurrency := Some(openCurrency), paymentState := state);
      if openCurrency <= 0 {
        var flagged := FlagReconciled(db.chart, m.lines);
        m := m.(lines := flagged);
      }
    } else {
      var state := if open <= 0 then Paid else if open < m.total then Partial else NotPaid;
      m := m.(residual := Max(0, open), paymentState := state);
      if open <= 0 {
        var flagged := FlagReconciled(db.chart, m.lines);
        m := m.(lines := flagged);
      }
    }
    db.Update(id, m);
  }

  /** The refresh loop at the end of every settlement. */
  method RefreshEach(db: Database, ids: seq<MoveId>)
    modifies db`moves
    ensures db.View() == RefreshAll(db.chart, old(db.View()), ids)
  {
    for i := 0 to |ids|
      invariant db.View() == RefreshAll(db.chart, old(db.View()), ids[..i])
    {
      assert ids[..i + 1][..i] == ids[..i];
      RefreshPaymentState(db, ids[i]);
    }
    assert ids[..|ids|] == ids;
  }
}
