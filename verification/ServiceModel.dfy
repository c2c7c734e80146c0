/** The posting engine of `service.rs`, as functions from the tables before a call to the tables after it. */
module ServiceModel {
  import opened Wrappers
  import opened Rounding
  import opened Ledger

  // A `Decimal` holds at most 28 decimal places: `SCALE` of its units make one sen.
  type Decimal = int
  const SCALE: int := 100000000000000000000000000

  datatype Amount = Amount(debit: Decimal, credit: Decimal)

  datatype NewLine = NewLine(account: AccountId, debit: Decimal, credit: Decimal, foreign: Option<Foreign>)

  datatype NewMove = NewMove(journal: string, date: Date, kind: Kind, partner: Option<PartnerId>, lines: seq<NewLine>)

  // ─── Balance validation ─────────────────────────────────────────────

  function TotalDebit(lines: seq<Amount>): Decimal {
    if lines == [] then 0 else TotalDebit(lines[..|lines| - 1]) + lines[|lines| - 1].debit
  }

  function TotalCredit(lines: seq<Amount>): Decimal {
    if lines == [] then 0 else TotalCredit(lines[..|lines| - 1]) + lines[|lines| - 1].credit
  }

  function Fault(a: Amount): Option<Error> {
    if a.debit < 0 || a.credit < 0 then Some(NegativeAmount)
    else if a.debit != 0 && a.credit != 0 then Some(TwoSidedLine)
    else None
  }

  function FirstFault(lines: seq<Amount>): Option<Error> {
    if lines == [] then None
    else
      var earlier := FirstFault(lines[..|lines| - 1]);
      if earlier.Some? then earlier else Fault(lines[|lines| - 1])
  }

  /** The answer of `validate_balanced`: the 2-dp total, or the first thing wrong. */
  function Verdict(lines: seq<Amount>): Result<int> {
    if |lines| < 2 then Err(TooFewLines)
    else if FirstFault(lines).Some? then Err(FirstFault(lines).value)
    else
      var debit, credit := RoundDiv(TotalDebit(lines), SCALE), RoundDiv(TotalCredit(lines), SCALE);
      if debit != credit then Err(Unbalanced)
      else if debit == 0 then Err(ZeroTotal)
      else Ok(debit)
  }

  lemma {:induction false} FirstFaultIsNone(lines: seq<Amount>)
    ensures FirstFault(lines).None? <==> forall i :: 0 <= i < |lines| ==> Fault(lines[i]).None?
  {
    if lines != [] {
      FirstFaultIsNone(lines[..|lines| - 1]);
    }
  }

  /** Amounts of stored lines: whole sen. */
  function StoredAmounts(lines: seq<Line>): (r: seq<Amount>)
    ensures |r| == |lines|
    ensures forall i :: 0 <= i < |lines| ==> r[i] == Amount(lines[i].debit * SCALE, lines[i].credit * SCALE)
  {
    seq(|lines|, i requires 0 <= i < |lines| => Amount(lines[i].debit * SCALE, lines[i].credit * SCALE))
  }

  lemma {:induction false} StoredTotals(lines: seq<Line>)
    ensures TotalDebit(StoredAmounts(lines)) == SumDebit(lines) * SCALE
    ensures TotalCredit(StoredAmounts(lines)) == SumCredit(lines) * SCALE
  {
    if lines != [] {
      StoredTotals(lines[..|lines| - 1]);
      assert StoredAmounts(lines)[..|lines| - 1] == StoredAmounts(lines[..|lines| - 1]);
    }
  }

  /** On stored lines the check accepts exactly the balanced entries, and reports their total. */
  lemma VerdictOfStored(lines: seq<Line>)
    ensures Verdict(StoredAmounts(lines)).Ok? <==> Balanced(lines)
    ensures Balanced(lines) ==> Verdict(StoredAmounts(lines)) == Ok(SumDebit(lines))
  {
    var amounts := StoredAmounts(lines);
    FirstFaultIsNone(amounts);
    StoredTotals(lines);
    RoundIsIdentity(SumDebit(lines), SCALE);
    RoundIsIdentity(SumCredit(lines), SCALE);
    assert forall i :: 0 <= i < |lines| ==> (Fault(amounts[i]).None? <==> OneSided(lines[i]));
  }

  // ─── Creating drafts ────────────────────────────────────────────────

  function Stored(l: NewLine): Line {
    Line(l.account, RoundDiv(l.debit, SCALE), RoundDiv(l.credit, SCALE), l.foreign, false)
  }

  /** The rows `create_move` writes: both sides rounded to the storage precision. */
  function StoredLines(lines: seq<NewLine>): (r: seq<Line>)
    ensures |r| == |lines|
    ensures forall i :: 0 <= i < |lines| ==> r[i] == Stored(lines[i])
  {
    seq(|lines|, i requires 0 <= i < |lines| => Stored(lines[i]))
  }

  function InputAmounts(lines: seq<NewLine>): (r: seq<Amount>)
    ensures |r| == |lines|
    ensures forall i :: 0 <= i < |lines| ==> r[i] == Amount(lines[i].debit, lines[i].credit)
  {
    seq(|lines|, i requires 0 <= i < |lines| => Amount(lines[i].debit, lines[i].credit))
  }

  /** Lines whose amounts are whole sen. */
  function FromSen(lines: seq<Line>): (r: seq<NewLine>)
    ensures |r| == |lines|
    ensures forall i :: 0 <= i < |lines| ==>
              r[i] == NewLine(lines[i].account, lines[i].debit * SCALE, lines[i].credit * SCALE, lines[i].foreign)
  {
    seq(|lines|, i requires 0 <= i < |lines| =>
      NewLine(lines[i].account, lines[i].debit * SCALE, lines[i].credit * SCALE, lines[i].foreign))
  }

  lemma FromSenIsExact(lines: seq<Line>)
    requires forall l :: l in lines ==> !l.reconciled
    ensures StoredLines(FromSen(lines)) == lines
    ensures InputAmounts(FromSen(lines)) == StoredAmounts(lines)
  {
    forall i | 0 <= i < |lines| ensures StoredLines(FromSen(lines))[i] == lines[i] {
      assert lines[i] in lines;
      RoundIsIdentity(lines[i].debit, SCALE);
      RoundIsIdentity(lines[i].credit, SCALE);
    }
  }

  function Debit(account: AccountId, amount: int): Line {
    Line(account, amount, 0, None, false)
  }

  function Credit(account: AccountId, amount: int): Line {
    Line(account, 0, amount, None, false)
  }

  /** The row constraints of `acc_move_line`: a known account, one non-negative side. */
  predicate RowAccepted(c: Chart, l: Line) {
    l.account < |c.accounts| && OneSided(l)
  }

  function Blank(entry: NewMove): Move {
    Move(entry.journal, entry.date, None, Draft, entry.kind, None, entry.partner, None, [], StoredLines(entry.lines),
         0, 0, 0, None, 0, None, NotPaid, None)
  }

  function CreateMove(c: Chart, s: State, entry: NewMove): Reply<MoveId> {
    if entry.lines == [] then Reply(s, Err(NoLines))
    else if entry.journal !in c.journals then Reply(s, Err(UnknownJournal))
    else if exists i :: 0 <= i < |entry.lines| && !RowAccepted(c, StoredLines(entry.lines)[i]) then
      Reply(s, Err(RowRejected))
    else Reply(s.(moves := s.moves + [Blank(entry)]), Ok(|s.moves|))
  }

  // ─── Posting ────────────────────────────────────────────────────────

  predicate Locked(s: State, d: Date) {
    s.lock.Some? && d <= s.lock.value
  }

  predicate InClosedYear(s: State, d: Date) {
    exists y :: 0 <= y < |s.years| && s.years[y].closed && s.years[y].from <= d <= s.years[y].to
  }

  /** Nothing may be posted on, or taken off, a frozen date. */
  predicate Frozen(s: State, d: Date) {
    Locked(s, d) || InClosedYear(s, d)
  }

  /** The row of a move once posted with this number and this balanced total. */
  function PostedRow(m: Move, number: nat, total: int): Move {
    var docTotal := if m.total == 0 then total else m.total;
    m.(stage := Posted, number := Some(number),
       residual := if m.kind.Entry? then 0 else docTotal,
       total := if m.kind.Entry? then m.total else docTotal)
  }

  function PostMove(s: State, id: MoveId): Reply<nat> {
    if id >= |s.moves| then Reply(s, Err(NotFound))
    else
      var m := s.moves[id];
      if !m.stage.Draft? then Reply(s, Err(NotDraft))
      else if Locked(s, m.date) then Reply(s, Err(PeriodLocked))
      else if InClosedYear(s, m.date) then Reply(s, Err(YearClosed))
      else
        match Verdict(StoredAmounts(m.lines))
        case Err(e) => Reply(s, Err(e))
        case Ok(total) =>
          var number := if m.number.Some? then m.number.value else s.nextNumber;
          Reply(s.(moves := s.moves[id := PostedRow(m, number, total)],
                   nextNumber := if m.number.Some? then s.nextNumber else s.nextNumber + 1),
                Ok(number))
  }

  /** Validates, creates and posts; a refusal by the last step leaves the draft behind. */
  function CreateAndPost(c: Chart, s: State, entry: NewMove): Reply<MoveId> {
    match Verdict(InputAmounts(entry.lines))
    case Err(e) => Reply(s, Err(e))
    case Ok(_) =>
      var created := CreateMove(c, s, entry);
      if created.result.Err? then created
      else
        var posted := PostMove(created.db, created.result.value);
        Reply(posted.db, if posted.result.Ok? then created.result else Err(posted.result.error))
  }

  function UnpostMove(s: State, id: MoveId): Reply<()> {
    if id >= |s.moves| || !s.moves[id].stage.Posted? then Reply(s, Err(NotPosted))
    else Reply(s.(moves := s.moves[id := s.moves[id].(stage := Draft, paymentState := NotPaid, residual := 0)]), Ok(()))
  }

  // ─── Reversal ───────────────────────────────────────────────────────

  function Swap(l: Line): Line {
    Line(l.account, l.credit, l.debit,
         if l.foreign.Some? then Some(Foreign(l.foreign.value.currency, -l.foreign.value.amount)) else None,
         false)
  }

  /** Debits and credits exchanged, line by line. */
  function Swapped(lines: seq<Line>): (r: seq<Line>)
    ensures |r| == |lines|
    ensures forall i :: 0 <= i < |lines| ==> r[i] == Swap(lines[i])
  {
    seq(|lines|, i requires 0 <= i < |lines| => Swap(lines[i]))
  }

  function ReversalOf(m: Move, date: Date): NewMove {
    NewMove(m.journal, date, Entry, m.partner, FromSen(Swapped(m.lines)))
  }

  function ReverseMove(c: Chart, s: State, id: MoveId, date: Date): Reply<MoveId> {
    if id >= |s.moves| then Reply(s, Err(NotFound))
    else if !s.moves[id].stage.Posted? then Reply(s, Err(NotPosted))
    else
      var r := CreateAndPost(c, s, ReversalOf(s.moves[id], date));
      if r.result.Err? || r.result.value >= |r.db.moves| || id >= |r.db.moves| then r
      else
        var rid := r.result.value;
        var linked := r.db.moves[rid := r.db.moves[rid].(reverses := Some(id))];
        Reply(r.db.(moves := linked[id := linked[id].(paymentState := Reversed)]), Ok(rid))
  }

  // ─── What the calls do ──────────────────────────────────────────────

  /** Posting succeeds exactly on a balanced draft with an open date. */
  lemma PostMoveEffect(s: State, id: MoveId)
    ensures PostMove(s, id).result.Ok? <==>
            id < |s.moves| && s.moves[id].stage.Draft? && !Frozen(s, s.moves[id].date) && Balanced(s.moves[id].lines)
    ensures PostMove(s, id).result.Err? ==> PostMove(s, id).db == s
    ensures PostMove(s, id).result.Ok? ==>
              var m := s.moves[id];
              var number := PostMove(s, id).result.value;
              && PostMove(s, id).db == s.(moves := s.moves[id := PostedRow(m, number, SumDebit(m.lines))],
                                          nextNumber := PostMove(s, id).db.nextNumber)
              && (if m.number.Some? then number == m.number.value && PostMove(s, id).db.nextNumber == s.nextNumber
                  else number == s.nextNumber && PostMove(s, id).db.nextNumber == s.nextNumber + 1)
  {
    if id < |s.moves| {
      VerdictOfStored(s.moves[id].lines);
    }
  }

  ghost predicate RowsAccepted(c: Chart, lines: seq<Line>) {
    forall i :: 0 <= i < |lines| ==> RowAccepted(c, lines[i])
  }

  ghost predicate FreshLines(lines: seq<Line>) {
    forall l :: l in lines ==> !l.reconciled
  }

  /** What one call adds to the table of moves when everything it is given is in whole sen. */
  function NewRow(entry: NewMove, number: nat, total: int): Move {
    PostedRow(Blank(entry), number, total)
  }

  lemma VerdictNeedsLines(lines: seq<Amount>)
    ensures Verdict(lines).Ok? ==> |lines| >= 2
  {
  }

  lemma OpenDates(s: State, t: State, d: Date)
    requires t.lock == s.lock && t.years == s.years
    ensures Frozen(t, d) <==> Frozen(s, d)
  {
  }

  /**
   Whole-sen entries: the call succeeds exactly when the entry is balanced, its accounts and journal
   exist and its date is open; it then appends one posted row. A refused call leaves the tables as
   they were, or with one stray draft exactly when only the date was at fault.
   */
  lemma CreateAndPostEffect(c: Chart, s: State, entry: NewMove, lines: seq<Line>)
    requires entry.lines == FromSen(lines) && FreshLines(lines)
    ensures CreateAndPost(c, s, entry).result.Ok? <==>
            entry.journal in c.journals && RowsAccepted(c, lines) && Balanced(lines) && !Frozen(s, entry.date)
    ensures CreateAndPost(c, s, entry).result.Ok? ==>
              && CreateAndPost(c, s, entry).result.value == |s.moves|
              && CreateAndPost(c, s, entry).db ==
                 s.(moves := s.moves + [NewRow(entry, s.nextNumber, SumDebit(lines))], nextNumber := s.nextNumber + 1)
              && Blank(entry).lines == lines
    ensures CreateAndPost(c, s, entry).result.Err? ==>
              CreateAndPost(c, s, entry).db == s ||
              (CreateAndPost(c, s, entry).db == s.(moves := s.moves + [Blank(entry)]) &&
               Balanced(lines) && Blank(entry).lines == lines && Frozen(s, entry.date))
    ensures CreateAndPost(c, s, entry).db == s.(moves := s.moves + [Blank(entry)]) <==>
            entry.journal in c.journals && RowsAccepted(c, lines) && Balanced(lines) && Frozen(s, entry.date)
  {
    FromSenIsExact(lines);
    VerdictOfStored(lines);
    hide Balanced, Verdict, Frozen, SumDebit;
    CreateAndPostOfDecimals(c, s, entry);
    hide CreateAndPost;
  }

  /** The entry passes the check of its raw amounts and is stored, but cannot be posted. */
  ghost predicate Strays(c: Chart, s: State, entry: NewMove) {
    && Verdict(InputAmounts(entry.lines)).Ok? && entry.journal in c.journals && RowsAccepted(c, StoredLines(entry.lines))
    && (Frozen(s, entry.date) || !Balanced(StoredLines(entry.lines)))
  }

  /**
   Any input, also finer than a sen: the call succeeds exactly when both the raw and the rounded lines
   balance, its accounts and journal exist and its date is open. It leaves a stray draft behind exactly
   when the raw lines pass and are stored but the rounded ones do not balance or the date is frozen; any
   other refusal leaves the tables as they were. See `SubSenEntryIsRefusedLate` for such an entry.
   */
  lemma CreateAndPostOfDecimals(c: Chart, s: State, entry: NewMove)
    ensures CreateAndPost(c, s, entry).result.Ok? <==>
            && Verdict(InputAmounts(entry.lines)).Ok? && Balanced(StoredLines(entry.lines))
            && entry.journal in c.journals && RowsAccepted(c, StoredLines(entry.lines)) && !Frozen(s, entry.date)
    ensures CreateAndPost(c, s, entry).result.Ok? ==>
              CreateAndPost(c, s, entry) ==
              Reply(s.(moves := s.moves + [NewRow(entry, s.nextNumber, SumDebit(StoredLines(entry.lines)))], nextNumber := s.nextNumber + 1),
                    Ok(|s.moves|))
    ensures CreateAndPost(c, s, entry).db == s.(moves := s.moves + [Blank(entry)]) <==> Strays(c, s, entry)
    ensures CreateAndPost(c, s, entry).result.Err? && !Strays(c, s, entry) ==> CreateAndPost(c, s, entry).db == s
  {
    hide Balanced, Verdict, Frozen, SumDebit;
    if Verdict(InputAmounts(entry.lines)).Ok? {
      VerdictNeedsLines(InputAmounts(entry.lines));
      var created := CreateMove(c, s, entry);
      if created.result.Ok? {
        PostMoveEffect(created.db, |s.moves|);
        hide PostMove;
        OpenDates(s, created.db, entry.date);
        var row := NewRow(entry, s.nextNumber, SumDebit(StoredLines(entry.lines)));
        assert (s.moves + [Blank(entry)])[|s.moves| := row] == s.moves + [row];
        assert (s.moves + [row])[|s.moves|] != (s.moves + [Blank(entry)])[|s.moves|];
      }
    }
  }

  lemma TotalsOfThree(x: Amount, y: Amount, z: Amount)
    ensures TotalDebit([x, y, z]) == x.debit + y.debit + z.debit
    ensures TotalCredit([x, y, z]) == x.credit + y.credit + z.credit
  {
    assert [x, y, z][..2] == [x, y] && [x, y][..1] == [x] && [x][..0] == [];
    assert TotalDebit([x]) == x.debit && TotalCredit([x]) == x.credit;
    assert TotalDebit([x, y]) == x.debit + y.debit && TotalCredit([x, y]) == x.credit + y.credit;
  }

  /** Debits of 10.004 twice and a credit of 20.01. */
  function SubSenLine(a: AccountId): NewLine {
    NewLine(a, 1000 * SCALE + 2 * SCALE / 5, 0, None)
  }

  function SubSenEntry(a: AccountId, date: Date): NewMove {
    NewMove("GEN", date, Entry, None, [SubSenLine(a), SubSenLine(a), NewLine(a, 0, 2001 * SCALE, None)])
  }

  lemma SubSenPasses(a: AccountId, date: Date)
    ensures Verdict(InputAmounts(SubSenEntry(a, date).lines)) == Ok(2001)
  {
    var x, y := Amount(1000 * SCALE + 2 * SCALE / 5, 0), Amount(0, 2001 * SCALE);
    assert InputAmounts(SubSenEntry(a, date).lines) == [x, x, y];
    TotalsOfThree(x, x, y);
    FirstFaultIsNone([x, x, y]);
    hide TotalDebit, TotalCredit, FirstFault;
  }

  lemma SubSenIsRounded(a: AccountId, date: Date)
    ensures StoredLines(SubSenEntry(a, date).lines) ==
            [Line(a, 1000, 0, None, false), Line(a, 1000, 0, None, false), Line(a, 0, 2001, None, false)]
    ensures !Balanced(StoredLines(SubSenEntry(a, date).lines))
  {
    var u, v := Line(a, 1000, 0, None, false), Line(a, 0, 2001, None, false);
    assert Stored(SubSenLine(a)) == u && Stored(NewLine(a, 0, 2001 * SCALE, None)) == v;
    assert StoredLines(SubSenEntry(a, date).lines) == [u, u, v];
    hide SumDebit, SumCredit, Net, StoredLines;
    assert [u, u, v] == [u, u] + [v];
    SumsOfTwo(u, u, {});
    SumsOfConcat([u, u], [v], {});
    SumsOfOne(v, {});
  }

  /** Debits of 10.004 twice against a credit of 20.01: accepted up front, refused once stored. */
  lemma SubSenEntryIsRefusedLate(c: Chart, s: State, date: Date, a: AccountId)
    requires "GEN" in c.journals && a < |c.accounts|
    ensures var entry := SubSenEntry(a, date);
            && Verdict(InputAmounts(entry.lines)) == Ok(2001)
            && CreateAndPost(c, s, entry).result.Err?
            && CreateAndPost(c, s, entry).db == s.(moves := s.moves + [Blank(entry)])
  {
    hide Verdict, StoredLines, Balanced, CreateAndPost, Blank;
    SubSenPasses(a, date);
    SubSenIsRounded(a, date);
    CreateAndPostOfDecimals(c, s, SubSenEntry(a, date));
  }

  lemma {:induction false} SwappedSums(lines: seq<Line>, on: set<AccountId>)
    ensures SumDebit(Swapped(lines)) == SumCredit(lines)
    ensures SumCredit(Swapped(lines)) == SumDebit(lines)
    ensures Net(Swapped(lines), on) == -Net(lines, on)
  {
    if lines != [] {
      SwappedSums(lines[..|lines| - 1], on);
      assert Swapped(lines)[..|lines| - 1] == Swapped(lines[..|lines| - 1]);
    }
  }

  /** A balanced entry reverses to a balanced entry. */
  lemma SwappedIsBalanced(lines: seq<Line>)
    requires Balanced(lines)
    ensures Balanced(Swapped(lines)) && SumDebit(Swapped(lines)) == SumDebit(lines)
  {
    SwappedSums(lines, {});
  }

  /**
   Reversing a balanced posted move: refused only for the reversal's own date or configuration,
   otherwise one posted counter-entry is appended and the original is flagged, nothing else.
   */
  lemma ReverseMoveEffect(c: Chart, s: State, id: MoveId, date: Date)
    requires id < |s.moves| && s.moves[id].stage.Posted? && Balanced(s.moves[id].lines)
    ensures var r := ReverseMove(c, s, id, date);
            var m := s.moves[id];
            var entry := ReversalOf(m, date);
            var row := NewRow(entry, s.nextNumber, SumDebit(m.lines)).(reverses := Some(id));
            && (r.result.Ok? <==> m.journal in c.journals && RowsAccepted(c, m.lines) && !Frozen(s, date))
            && Blank(entry).lines == Swapped(m.lines)
            && (r.result.Ok? ==>
                  r.result.value == |s.moves| &&
                  r.db == s.(moves := s.moves[id := m.(paymentState := Reversed)] + [row],
                             nextNumber := s.nextNumber + 1))
            && (r.result.Err? ==> r.db == s || (r.db == s.(moves := s.moves + [Blank(entry)]) && Frozen(s, date)))
  {
    var m := s.moves[id];
    var entry := ReversalOf(m, date);
    var lines := Swapped(m.lines);
    SwappedIsBalanced(m.lines);
    CreateAndPostEffect(c, s, entry, lines);
    FromSenIsExact(lines);
    assert RowsAccepted(c, lines) <==> RowsAccepted(c, m.lines) by {
      assert forall i :: 0 <= i < |lines| ==> (RowAccepted(c, lines[i]) <==> RowAccepted(c, m.lines[i]));
    }
    var r := CreateAndPost(c, s, entry);
    if r.result.Ok? {
      var n := |s.moves|;
      var row := NewRow(entry, s.nextNumber, SumDebit(m.lines));
      assert r.db.moves == s.moves + [row];
      var linked := r.db.moves[n := row.(reverses := Some(id))];
      assert linked == s.moves + [row.(reverses := Some(id))];
      assert linked[id := m.(paymentState := Reversed)] ==
             s.moves[id := m.(paymentState := Reversed)] + [row.(reverses := Some(id))];
    }
  }
}
