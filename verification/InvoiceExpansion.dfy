/** An invoice's GL lines against its header: same total, whatever the tax function. */
module InvoiceExpansion {
  import opened Wrappers
  import opened Ledger
  import opened ServiceModel
  import opened CurrencyModel
  import opened DocumentsModel
  import opened DocumentWorth

  /** The document-currency amounts of the component lines, in order. */
  function BaseAmounts(c: Chart, lines: seq<DocLine>): seq<int>
    requires TaxesKnown(c, lines)
  {
    if lines == [] then [] else BaseAmounts(c, lines[..|lines| - 1]) + [Base(c, lines[|lines| - 1])]
  }

  function BucketAmounts(c: Chart, lines: seq<DocLine>, n: nat): seq<int>
    requires TaxesKnown(c, lines)
  {
    if n == 0 then []
    else
      var before := BucketAmounts(c, lines, n - 1);
      if BucketTax(c, lines, n - 1) == 0 then before else before + [BucketTax(c, lines, n - 1)]
  }

  function Components(c: Chart, lines: seq<DocLine>): seq<int>
    requires TaxesKnown(c, lines)
  {
    BaseAmounts(c, lines) + BucketAmounts(c, lines, |c.taxes|)
  }

  lemma {:induction false} BaseAmountsSum(c: Chart, lines: seq<DocLine>)
    requires TaxesKnown(c, lines)
    ensures Sum(BaseAmounts(c, lines)) == Untaxed(c, lines) && |BaseAmounts(c, lines)| == |lines|
  {
    if lines != [] {
      var rest := BaseAmounts(c, lines[..|lines| - 1]);
      BaseAmountsSum(c, lines[..|lines| - 1]);
      assert (rest + [Base(c, lines[|lines| - 1])])[..|rest|] == rest;
    }
  }

  lemma BucketTaxOfOneMore(c: Chart, lines: seq<DocLine>, l: DocLine, t: TaxId)
    requires TaxesKnown(c, lines + [l]) && TaxesKnown(c, lines) && TaxKnown(c, l)
    ensures BucketTax(c, lines + [l], t) == BucketTax(c, lines, t) + if l.tax == Some(t) then TaxAmount(c, l) else 0
  {
    assert (lines + [l])[..|lines|] == lines;
  }

  /** Adding a line raises exactly its own tax's bucket, so the buckets gain its tax once. */
  lemma {:induction false} BucketsOfOneMore(c: Chart, lines: seq<DocLine>, l: DocLine, n: nat)
    requires TaxesKnown(c, lines + [l]) && TaxesKnown(c, lines) && TaxKnown(c, l)
    ensures Sum(BucketAmounts(c, lines + [l], n)) ==
            Sum(BucketAmounts(c, lines, n)) + if l.tax.Some? && l.tax.value < n then TaxAmount(c, l) else 0
  {
    if n == 0 {
      assert BucketAmounts(c, lines + [l], 0) == [] && BucketAmounts(c, lines, 0) == [];
    } else {
      var m := n - 1;
      BucketsOfOneMore(c, lines, l, m);
      BucketTaxOfOneMore(c, lines, l, m);
      BucketStep(c, lines, m);
      BucketStep(c, lines + [l], m);
    }
  }

  lemma BucketStep(c: Chart, lines: seq<DocLine>, n: nat)
    requires TaxesKnown(c, lines)
    ensures Sum(BucketAmounts(c, lines, n + 1)) == Sum(BucketAmounts(c, lines, n)) + BucketTax(c, lines, n)
  {
    var before := BucketAmounts(c, lines, n);
    assert (before + [BucketTax(c, lines, n)])[..|before|] == before;
  }

  lemma {:induction false} NoLinesNoBuckets(c: Chart, n: nat)
    ensures Sum(BucketAmounts(c, [], n)) == 0
  {
    if n > 0 {
      NoLinesNoBuckets(c, n - 1);
    }
  }

  /** Aggregating per tax loses nothing: the buckets add up to the header's tax. */
  lemma {:induction false} BucketsSum(c: Chart, lines: seq<DocLine>)
    requires TaxesKnown(c, lines)
    ensures Sum(BucketAmounts(c, lines, |c.taxes|)) == TaxTotal(c, lines)
  {
    if lines == [] {
      NoLinesNoBuckets(c, |c.taxes|);
    } else {
      var rest, l := lines[..|lines| - 1], lines[|lines| - 1];
      BucketsSum(c, rest);
      assert rest + [l] == lines;
      BucketsOfOneMore(c, rest, l, |c.taxes|);
    }
  }

  lemma ComponentsSum(c: Chart, lines: seq<DocLine>)
    requires TaxesKnown(c, lines)
    ensures Sum(Components(c, lines)) == Untaxed(c, lines) + TaxTotal(c, lines)
  {
    BaseAmountsSum(c, lines);
    BucketsSum(c, lines);
    SumsOfPieces(BaseAmounts(c, lines), BucketAmounts(c, lines, |c.taxes|), 0);
  }

  /** A list of one-sided lines on side `isDebit` that convert the amounts `xs`. */
  ghost predicate Converts(lines: seq<Line>, xs: seq<int>, isDebit: bool, terms: Terms) {
    && |lines| == |xs|
    && (if isDebit then SumDebit(lines) else SumCredit(lines)) == SumMyr(xs, terms.rate)
    && (if isDebit then SumCredit(lines) else SumDebit(lines)) == 0
    && (forall l :: l in lines ==> !l.reconciled && (terms.currency.None? <==> l.foreign.None?))
  }

  lemma ConvertsOneMore(lines: seq<Line>, xs: seq<int>, isDebit: bool, terms: Terms, account: AccountId, x: int)
    requires Converts(lines, xs, isDebit, terms)
    ensures Converts(lines + [SideLine(account, isDebit, ToMyr(x, terms.rate), terms.currency, x)], xs + [x], isDebit, terms)
  {
    var l := SideLine(account, isDebit, ToMyr(x, terms.rate), terms.currency, x);
    assert (lines + [l])[..|lines|] == lines;
    assert (xs + [x])[..|xs|] == xs;
  }

  lemma {:induction false} BaseLinesConvert(c: Chart, terms: Terms, lines: seq<DocLine>)
    requires TaxesKnown(c, lines) && LineAccountsKnown(c, terms.kind, lines)
    ensures Converts(BaseLines(c, terms, lines), BaseAmounts(c, lines), !CounterpartIsDebit(terms.kind), terms)
  {
    if lines != [] {
      var rest, l := lines[..|lines| - 1], lines[|lines| - 1];
      BaseLinesConvert(c, terms, rest);
      ConvertsOneMore(BaseLines(c, terms, rest), BaseAmounts(c, rest), !CounterpartIsDebit(terms.kind), terms,
                      LineAccount(c, terms.kind, l).value, Base(c, l));
    }
  }

  lemma {:induction false} TaxLinesConvert(c: Chart, terms: Terms, lines: seq<DocLine>, n: nat)
    requires n <= |c.taxes| && TaxesKnown(c, lines) && TaxAccountsKnown(c, lines, n)
    ensures Converts(TaxLines(c, terms, lines, n), BucketAmounts(c, lines, n), !CounterpartIsDebit(terms.kind), terms)
  {
    if n > 0 {
      TaxLinesConvert(c, terms, lines, n - 1);
      if BucketTax(c, lines, n - 1) != 0 {
        ConvertsOneMore(TaxLines(c, terms, lines, n - 1), BucketAmounts(c, lines, n - 1), !CounterpartIsDebit(terms.kind), terms,
                        TaxAccount(c, n - 1).value, BucketTax(c, lines, n - 1));
      }
    }
  }

  /** The counterpart of an expansion and the component lines behind it. */
  lemma ExpansionConverts(c: Chart, terms: Terms, partner: Option<PartnerId>, lines: seq<DocLine>, total: int)
    requires TaxesKnown(c, lines) && Expansion(c, terms, partner, lines, total).Ok?
    ensures var gl := Expansion(c, terms, partner, lines, total).value;
            var isDebit := CounterpartIsDebit(terms.kind);
            && Converts(gl[1..], Components(c, lines), !isDebit, terms)
            && Gl(gl[1..]) == SumMyr(Components(c, lines), terms.rate)
            && gl[0] == SideLine(c.PartnerAccount(partner, CounterpartRole(terms.kind)).value, isDebit, Gl(gl[1..]), terms.currency, total)
            && SumDebit(gl) == SumCredit(gl) == Gl(gl[1..])
            && FreshLines(gl)
            && (forall l :: l in gl ==> (terms.currency.None? <==> l.foreign.None?))
  {
    var gl := Expansion(c, terms, partner, lines, total).value;
    var bases, taxes := BaseLines(c, terms, lines), TaxLines(c, terms, lines, |c.taxes|);
    BaseLinesConvert(c, terms, lines);
    TaxLinesConvert(c, terms, lines, |c.taxes|);
    SumsOfConcat(bases, taxes, {});
    SumsOfPieces(BaseAmounts(c, lines), BucketAmounts(c, lines, |c.taxes|), terms.rate);
    assert gl[1..] == bases + taxes;
    assert gl == [gl[0]] + gl[1..];
    SumsOfConcat([gl[0]], gl[1..], {});
    assert [gl[0]][..0] == [];
  }

  lemma ExpansionIsNotEmpty(c: Chart, terms: Terms, partner: Option<PartnerId>, lines: seq<DocLine>, total: int)
    requires TaxesKnown(c, lines) && Expansion(c, terms, partner, lines, total).Ok?
    ensures Expansion(c, terms, partner, lines, total).value != []
  {
  }

  /**
   Invoice expansion agrees with the header. In company currency the counterpart carries exactly the
   header total, which is the sum of the income/expense and tax lines; a foreign-currency document
   still balances, with a counterpart within half a sen per component (and half for the total) of
   converting the total at once.
   */
  lemma ExpansionAgreesWithHeader(c: Chart, terms: Terms, partner: Option<PartnerId>, lines: seq<DocLine>)
    requires DocumentTotals(c, lines).Ok?
    requires var t := DocumentTotals(c, lines).value; Expansion(c, terms, partner, lines, t.total).Ok?
    ensures var t := DocumentTotals(c, lines).value;
            var gl := Expansion(c, terms, partner, lines, t.total).value;
            && SumDebit(gl) == SumCredit(gl) == LineGross(gl[0]) == Gl(gl[1..])
            && (terms.rate == ONE ==> LineGross(gl[0]) == t.total == t.untaxed + t.tax)
            && 2 * Abs(LineGross(gl[0]) - ToMyr(t.total, terms.rate)) <= |gl[1..]| + 1
  {
    var t := DocumentTotals(c, lines).value;
    ExpansionConverts(c, terms, partner, lines, t.total);
    ComponentsSum(c, lines);
    PiecesAgainstWhole(Components(c, lines), terms.rate);
    if terms.rate == ONE {
      PiecesInCompanyCurrency(Components(c, lines));
    }
  }

  lemma {:induction false} BaseLineAt(c: Chart, terms: Terms, lines: seq<DocLine>, k: nat)
    requires TaxesKnown(c, lines) && LineAccountsKnown(c, terms.kind, lines) && k < |lines|
    ensures BaseLines(c, terms, lines)[k] ==
            SideLine(LineAccount(c, terms.kind, lines[k]).value, !CounterpartIsDebit(terms.kind),
                     ToMyr(Base(c, lines[k]), terms.rate), terms.currency, Base(c, lines[k]))
  {
    if k < |lines| - 1 {
      BaseLineAt(c, terms, lines[..|lines| - 1], k);
      assert lines[..|lines| - 1][k] == lines[k];
    }
  }

  /** On which side a document of this kind puts its receivable or payable. */
  predicate DebitsPartner(k: Kind) {
    k.CustomerInvoice? || k.VendorCreditNote?
  }

  /** A line that shows `amount` of the document's currency on one side, in MYR at the document's rate. */
  ghost predicate Shows(l: Line, isDebit: bool, amount: int, terms: Terms) {
    && l.debit == (if isDebit then ToMyr(amount, terms.rate) else 0)
    && l.credit == (if isDebit then 0 else ToMyr(amount, terms.rate))
    && l.foreign == (if terms.currency.Some? then Some(Foreign(terms.currency.value, if isDebit then amount else -amount)) else None)
  }

  lemma SideLineShows(account: AccountId, isDebit: bool, amount: int, terms: Terms)
    ensures Shows(SideLine(account, isDebit, ToMyr(amount, terms.rate), terms.currency, amount), isDebit, amount, terms)
    ensures SideLine(account, isDebit, ToMyr(amount, terms.rate), terms.currency, amount).account == account
  {
  }

  /** The lines of an expansion, by position. */
  lemma ExpansionInOrder(c: Chart, terms: Terms, partner: Option<PartnerId>, lines: seq<DocLine>, total: int)
    requires TaxesKnown(c, lines) && Expansion(c, terms, partner, lines, total).Ok?
    ensures LineAccountsKnown(c, terms.kind, lines) && TaxAccountsKnown(c, lines, |c.taxes|)
    ensures var gl := Expansion(c, terms, partner, lines, total).value;
            && gl[1..] == BaseLines(c, terms, lines) + TaxLines(c, terms, lines, |c.taxes|)
            && |gl| == 1 + |lines| + |TaxLines(c, terms, lines, |c.taxes|)|
  {
  }

  /**
   Who is debited and who is credited. Invoices and vendor credit notes debit the partner, bills and
   customer credit notes credit it. On the other side line k of the document posts the net part of what
   it is worth, quantity × price, to its own account or the default income or expense account.
   */
  lemma ExpansionSides(c: Chart, terms: Terms, partner: Option<PartnerId>, lines: seq<DocLine>, worth: seq<int>, total: int)
    requires TaxesKnown(c, lines) && Expansion(c, terms, partner, lines, total).Ok? && IsDocument(terms.kind)
    requires AreWorth(lines, worth)
    ensures var gl := Expansion(c, terms, partner, lines, total).value;
            && |gl| >= |lines| + 1
            && Some(gl[0].account) == c.PartnerAccount(partner, if IsCustomer(terms.kind) then Receivable else Payable)
            && (if DebitsPartner(terms.kind) then gl[0].credit == 0 else gl[0].debit == 0)
            && (forall k: nat :: k < |lines| ==>
                  && Shows(gl[k + 1], !DebitsPartner(terms.kind), NetPart(c, lines[k].tax, worth[k]), terms)
                  && Some(gl[k + 1].account) ==
                     (if lines[k].account.Some? then lines[k].account
                      else c.DefaultAccount(if IsCustomer(terms.kind) then IncomeRole else ExpenseRole)))
  {
    var gl := Expansion(c, terms, partner, lines, total).value;
    ExpansionInOrder(c, terms, partner, lines, total);
    assert Some(gl[0].account) == c.PartnerAccount(partner, if IsCustomer(terms.kind) then Receivable else Payable);
    hide Expansion, BaseLines, TaxLines, ToMyr, Base, SideLine, Shows, IsWorth;
    forall k: nat | k < |lines|
      ensures Shows(gl[k + 1], !DebitsPartner(terms.kind), NetPart(c, lines[k].tax, worth[k]), terms)
      ensures Some(gl[k + 1].account) == (if lines[k].account.Some? then lines[k].account
                                          else c.DefaultAccount(if IsCustomer(terms.kind) then IncomeRole else ExpenseRole))
    {
      assert gl[k + 1] == gl[1..][k] == BaseLines(c, terms, lines)[k];
      BaseLineAt(c, terms, lines, k);
      LineIsWorth(c, lines[k], worth[k]);
      SideLineShows(LineAccount(c, terms.kind, lines[k]).value, !CounterpartIsDebit(terms.kind), Base(c, lines[k]), terms);
    }
  }

  /**
   After those come the taxes, in order: each tax that amounts to something has one line, on the same
   side, with the sum of its parts of the lines' worth, on its own account or the default tax account.
   */
  lemma ExpansionTaxes(c: Chart, terms: Terms, partner: Option<PartnerId>, lines: seq<DocLine>, worth: seq<int>, total: int)
    requires TaxesKnown(c, lines) && Expansion(c, terms, partner, lines, total).Ok? && IsDocument(terms.kind)
    requires AreWorth(lines, worth)
    ensures var gl := Expansion(c, terms, partner, lines, total).value;
            && |gl| == 1 + |lines| + TaxesCharged(c, lines, worth, |c.taxes|)
            && (forall t: TaxId :: t < |c.taxes| && TaxSum(c, lines, worth, Some(t)) != 0 ==>
                  var i := 1 + |lines| + TaxesCharged(c, lines, worth, t);
                  && i < |gl| && Shows(gl[i], !DebitsPartner(terms.kind), TaxSum(c, lines, worth, Some(t)), terms)
                  && Some(gl[i].account) ==
                     (if c.taxes[t].account.Some? then c.taxes[t].account else c.DefaultAccount(TaxRole)))
  {
    var gl := Expansion(c, terms, partner, lines, total).value;
    ExpansionInOrder(c, terms, partner, lines, total);
    TaxLinesCount(c, terms, lines, worth, |c.taxes|);
    hide Expansion, BaseLines, TaxLines, ToMyr, SideLine, Shows, IsWorth, TaxSum, AreWorth, TaxesCharged;
    forall t: TaxId | t < |c.taxes| && TaxSum(c, lines, worth, Some(t)) != 0
      ensures 1 + |lines| + TaxesCharged(c, lines, worth, t) < |gl|
      ensures var i := 1 + |lines| + TaxesCharged(c, lines, worth, t);
              && Shows(gl[i], !DebitsPartner(terms.kind), TaxSum(c, lines, worth, Some(t)), terms)
              && Some(gl[i].account) == (if c.taxes[t].account.Some? then c.taxes[t].account else c.DefaultAccount(TaxRole))
    {
      TaxLineAt(c, terms, lines, worth, |c.taxes|, t);
      var k := TaxesCharged(c, lines, worth, t);
      assert gl[1 + |lines| + k] == gl[1..][|lines| + k] == TaxLines(c, terms, lines, |c.taxes|)[k];
      SideLineShows(TaxAccount(c, t).value, !CounterpartIsDebit(terms.kind), TaxSum(c, lines, worth, Some(t)), terms);
    }
  }

  /** A foreign-currency document also balances in its own currency. */
  function ForeignSum(lines: seq<Line>): int {
    if lines == [] then 0
    else
      var l := lines[|lines| - 1];
      ForeignSum(lines[..|lines| - 1]) + if l.foreign.Some? then l.foreign.value.amount else 0
  }

  lemma {:induction false} ForeignOfConcat(a: seq<Line>, b: seq<Line>)
    ensures ForeignSum(a + b) == ForeignSum(a) + ForeignSum(b)
  {
    if b == [] {
      assert a + b == a;
    } else {
      assert (a + b)[..|a + b| - 1] == a + b[..|b| - 1];
      ForeignOfConcat(a, b[..|b| - 1]);
    }
  }

  lemma {:induction false} ForeignOfBases(c: Chart, terms: Terms, lines: seq<DocLine>)
    requires TaxesKnown(c, lines) && LineAccountsKnown(c, terms.kind, lines) && terms.currency.Some?
    ensures ForeignSum(BaseLines(c, terms, lines)) == Signed(Untaxed(c, lines), !CounterpartIsDebit(terms.kind))
  {
    if lines != [] {
      var rest := BaseLines(c, terms, lines[..|lines| - 1]);
      ForeignOfBases(c, terms, lines[..|lines| - 1]);
      assert BaseLines(c, terms, lines)[..|rest|] == rest;
    }
  }

  lemma {:induction false} ForeignOfTaxes(c: Chart, terms: Terms, lines: seq<DocLine>, n: nat)
    requires n <= |c.taxes| && TaxesKnown(c, lines) && TaxAccountsKnown(c, lines, n) && terms.currency.Some?
    ensures ForeignSum(TaxLines(c, terms, lines, n)) ==
            Signed(Sum(BucketAmounts(c, lines, n)), !CounterpartIsDebit(terms.kind))
  {
    if n > 0 {
      var rest := TaxLines(c, terms, lines, n - 1);
      ForeignOfTaxes(c, terms, lines, n - 1);
      BucketStep(c, lines, n - 1);
      if BucketTax(c, lines, n - 1) != 0 {
        assert TaxLines(c, terms, lines, n)[..|rest|] == rest;
      }
    }
  }

  lemma ExpansionBalancesInItsCurrency(c: Chart, terms: Terms, partner: Option<PartnerId>, lines: seq<DocLine>)
    requires DocumentTotals(c, lines).Ok? && terms.currency.Some?
    requires Expansion(c, terms, partner, lines, DocumentTotals(c, lines).value.total).Ok?
    ensures ForeignSum(Expansion(c, terms, partner, lines, DocumentTotals(c, lines).value.total).value) == 0
  {
    var gl := Expansion(c, terms, partner, lines, DocumentTotals(c, lines).value.total).value;
    var bases, taxes := BaseLines(c, terms, lines), TaxLines(c, terms, lines, |c.taxes|);
    ForeignOfBases(c, terms, lines);
    ForeignOfTaxes(c, terms, lines, |c.taxes|);
    BucketsSum(c, lines);
    ForeignOfConcat(bases, taxes);
    assert gl == [gl[0]] + (bases + taxes);
    ForeignOfConcat([gl[0]], bases + taxes);
    assert [gl[0]][..0] == [];
  }
}
