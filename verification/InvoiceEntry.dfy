/** Drafting and posting a document, from the quantities and prices of its lines to its row (`documents.rs`). */
module InvoiceEntry {
  import opened Wrappers
  import opened Ledger
  import opened ServiceModel
  import opened CurrencyModel
  import opened DocumentsModel
  import opened DocumentWorth
  import opened InvoiceExpansion
  import opened DocumentsKeep

  /** A header that sums what its lines are worth. */
  ghost predicate HeaderOf(c: Chart, m: Move, worth: seq<int>) {
    && |worth| == |m.docLines|
    && m.untaxed == NetSum(c, m.docLines, worth) && m.tax == TaxSum(c, m.docLines, worth, None) && m.total == m.untaxed + m.tax
  }

  /**
   `create_invoice`: accepted exactly for a document kind with lines, a known journal, known taxes, positive
   quantities and a positive total; it appends one draft with the totals of its lines, in the given journal
   or else in SAL for customer documents and PUR for vendor documents.
   */
  lemma InvoiceIsDrafted(c: Chart, s: State, inv: NewInvoice, worth: seq<int>)
    requires AreWorth(inv.lines, worth)
    ensures var r := CreateInvoice(c, s, inv);
            var journal := if inv.journal.Some? then inv.journal.value
                           else if inv.kind.CustomerInvoice? || inv.kind.CustomerCreditNote? then "SAL" else "PUR";
            && (r.result.Ok? <==>
                  && inv.kind in {CustomerInvoice, CustomerCreditNote, VendorBill, VendorCreditNote}
                  && inv.lines != [] && journal in c.journals
                  && (forall i :: 0 <= i < |inv.lines| && inv.lines[i].tax.Some? ==> inv.lines[i].tax.value < |c.taxes|)
                  && (forall i :: 0 <= i < |inv.lines| ==> inv.lines[i].quantity > 0)
                  && NetSum(c, inv.lines, worth) + TaxSum(c, inv.lines, worth, None) > 0)
            && (r.result.Ok? ==>
                  && r.result.value == |s.moves| && |r.db.moves| == |s.moves| + 1
                  && r.db == s.(moves := s.moves + [r.db.moves[|s.moves|]])
                  && var m := r.db.moves[|s.moves|];
                     && m.stage.Draft? && m.kind == inv.kind && m.journal == journal && m.date == inv.date
                     && m.invoiceDate == Some(inv.date) && m.partner == Some(inv.partner) && m.currency == inv.currency
                     && m.docLines == inv.lines && m.lines == [] && m.rate.None? && HeaderOf(c, m, worth))
            && (r.result.Err? ==> r.db == s)
  {
    HeaderIsWorth(c, inv.lines, worth);
    hide DocumentTotals, NetSum, TaxSum;
  }

  /** Recomputing a draft's totals gives it the header of the lines it now has; posted rows stay as they are. */
  lemma TotalsAreRefreshed(c: Chart, s: State, id: MoveId, worth: seq<int>)
    requires id < |s.moves| && AreWorth(s.moves[id].docLines, worth)
    ensures var r := RefreshDocumentTotals(c, s, id);
            && (r.result.Err? <==>
                  && s.moves[id].stage.Draft?
                  && (exists i :: 0 <= i < |s.moves[id].docLines| && s.moves[id].docLines[i].tax.Some? && s.moves[id].docLines[i].tax.value >= |c.taxes|))
            && (r.result.Err? || !s.moves[id].stage.Draft? ==> r.db == s)
            && (r.result.Ok? && s.moves[id].stage.Draft? ==>
                  && |r.db.moves| == |s.moves| && r.db == s.(moves := s.moves[id := r.db.moves[id]])
                  && HeaderOf(c, r.db.moves[id], worth)
                  && r.db.moves[id] == s.moves[id].(untaxed := r.db.moves[id].untaxed, tax := r.db.moves[id].tax, total := r.db.moves[id].total))
  {
    HeaderIsWorth(c, s.moves[id].docLines, worth);
    hide DocumentTotals, NetSum, TaxSum;
  }

  /** How a document posts: in MYR at one to one, else in its currency at the rate of its invoice date. */
  ghost predicate PostsAt(c: Chart, m: Move, terms: Terms) {
    && terms.kind == m.kind
    && if m.currency.None? || m.currency == Some(MYR) then terms.currency.None? && terms.rate == ONE
       else
         && terms.currency == m.currency
         && c.rate(m.currency.value, if m.invoiceDate.Some? then m.invoiceDate.value else m.date) == Some(terms.rate)
  }

  lemma TermsPostAt(c: Chart, m: Move)
    requires TermsOf(c, m).Some?
    ensures PostsAt(c, m, TermsOf(c, m).value)
  {
  }

  /** The last step keeps the header and sets the rate. */
  lemma PostedHeader(s: State, id: MoveId, m: Move, terms: Terms, lines: seq<Line>)
    requires id < |s.moves| && m.stage.Draft? && IsDocument(m.kind) && m.total > 0 && lines != []
    requires PostExpanded(s.(moves := s.moves[id := ExpandedRow(m, terms, lines)]), id, terms, lines, m.total).result.Ok?
    ensures var t := PostExpanded(s.(moves := s.moves[id := ExpandedRow(m, terms, lines)]), id, terms, lines, m.total).db;
            && |t.moves| == |s.moves|
            && var row := t.moves[id];
               && row.stage.Posted? && row.lines == lines && row.kind == m.kind && row.date == m.date && row.partner == m.partner
               && row.docLines == m.docLines && row.currency == m.currency
               && row.untaxed == m.untaxed && row.tax == m.tax && row.total == m.total
               && row.rate == (if terms.currency.Some? then Some(terms.rate) else m.rate)
  {
    PostMoveEffect(s.(moves := s.moves[id := ExpandedRow(m, terms, lines)]), id);
    hide PostMove, Gl, Balanced, Frozen;
  }

  /**
   `post_invoice`: the posted row has the totals of what its lines are worth and the lines of the expansion
   at its terms, whose accounts, sides and amounts `ExpansionSides` and `ExpansionTaxes` give; a document
   in a foreign currency keeps the rate it posted at.
   */
  lemma InvoiceIsPosted(c: Chart, s: State, id: MoveId, worth: seq<int>) returns (terms: Terms)
    requires PostInvoice(c, s, id).result.Ok? && id < |s.moves| && AreWorth(s.moves[id].docLines, worth)
    ensures PostsAt(c, s.moves[id], terms)
    ensures var m, t := s.moves[id], PostInvoice(c, s, id).db;
            && |t.moves| == |s.moves| && TaxesKnown(c, m.docLines)
            && var row := t.moves[id];
               && row.stage.Posted? && row.kind == m.kind && row.date == m.date && row.partner == m.partner && row.docLines == m.docLines
               && HeaderOf(c, row, worth) && row.total > 0
               && (terms.currency.Some? ==> row.rate == Some(terms.rate))
               && Expansion(c, terms, m.partner, m.docLines, row.total) == Ok(row.lines)
  {
    PostInvoiceInSteps(c, s, id);
    HeaderIsWorth(c, s.moves[id].docLines, worth);
    var t := DocumentTotals(c, s.moves[id].docLines).value;
    var m := WithTotals(s.moves[id], t);
    TermsPostAt(c, m);
    terms := TermsOf(c, m).value;
    ExpansionIsNotEmpty(c, terms, m.partner, m.docLines, t.total);
    hide PostInvoice, PostExpanded, Expansion, TermsOf, NetSum, TaxSum, DocumentTotals;
    PostedHeader(s, id, m, terms, Expansion(c, terms, m.partner, m.docLines, t.total).value);
  }
}
