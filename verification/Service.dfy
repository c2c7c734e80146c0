/** The posting engine of `service.rs`, statement by statement, against its specification. */
module Service {
  import opened Wrappers
  import opened Rounding
  import opened Ledger
  import opened Tables
  import opened ServiceModel

  // ─── validate_balanced ──────────────────────────────────────────────

  /** The first faulty line decides, whatever comes after it. */
  lemma {:induction false} FaultDecides(lines: seq<Amount>, i: nat)
    requires i < |lines| && FirstFault(lines[..i]).None? && Fault(lines[i]).Some?
    ensures FirstFault(lines) == Fault(lines[i])
    decreases |lines|
  {
    var n := |lines| - 1;
    if i < n {
      assert lines[..n][..i] == lines[..i];
      FaultDecides(lines[..n], i);
    }
  }

  lemma TotalsStep(lines: seq<Amount>, i: nat)
    requires i < |lines|
    ensures TotalDebit(lines[..i + 1]) == TotalDebit(lines[..i]) + lines[i].debit
    ensures TotalCredit(lines[..i + 1]) == TotalCredit(lines[..i]) + lines[i].credit
    ensures FirstFault(lines[..i]).None? ==> FirstFault(lines[..i + 1]) == Fault(lines[i])
  {
    assert lines[..i + 1][..i] == lines[..i];
  }

  method ValidateBalanced(lines: seq<Amount>) returns (r: Result<int>)
    ensures r == Verdict(lines)
  {
    if |lines| < 2 {
      return Err(TooFewLines);
    }
    var debitTotal, creditTotal := 0, 0;
    for i := 0 to |lines|
      invariant debitTotal == TotalDebit(lines[..i]) && creditTotal == TotalCredit(lines[..i])
      invariant FirstFault(lines[..i]).None?
    {
      var line := lines[i];
      TotalsStep(lines, i);
      if line.debit < 0 || line.credit < 0 {
        FaultDecides(lines, i);
        return Err(NegativeAmount);
      }
      if line.debit != 0 && line.credit != 0 {
        FaultDecides(lines, i);
        return Err(TwoSidedLine);
      }
      debitTotal := debitTotal + line.debit;
      creditTotal := creditTotal + line.credit;
    }
    assert lines[..|lines|] == lines;
    debitTotal, creditTotal := RoundDiv(debitTotal, SCALE), RoundDiv(creditTotal, SCALE);
    if debitTotal != creditTotal {
      return Err(Unbalanced);
    }
    if debitTotal == 0 {
      return Err(ZeroTotal);
    }
    return Ok(debitTotal);
  }

  // ─── create_move, post_move ─────────────────────────────────────────

  /** The lines are inserted one by one, rounded to the storage precision; one rejected row undoes them all. */
  method CreateMove(db: Database, entry: NewMove) returns (r: Result<MoveId>)
    modifies db`moves
    ensures Reply(db.View(), r) == ServiceModel.CreateMove(db.chart, old(db.View()), entry)
  {
    if entry.lines == [] {
      return Err(NoLines);
    }
    if entry.journal !in db.chart.journals {
      return Err(UnknownJournal);
    }
    var stored: seq<Line> := [];
    for i := 0 to |entry.lines|
      invariant stored == StoredLines(entry.lines)[..i]
      invariant forall k :: 0 <= k < i ==> RowAccepted(db.chart, StoredLines(entry.lines)[k])
      invariant db.View() == old(db.View())
    {
      var row := Stored(entry.lines[i]);
      assert row == StoredLines(entry.lines)[i];
      if !RowAccepted(db.chart, row) {
        return Err(RowRejected);
      }
      stored := stored + [row];
    }
    assert stored == StoredLines(entry.lines);
    var id := db.Insert(Move(entry.journal, entry.date, None, Draft, entry.kind, None, entry.partner, None, [], stored,
                             0, 0, 0, None, 0, None, NotPaid, None));
    return Ok(id);
  }

  method IsInClosedYear(years: seq<FiscalYear>, d: Date) returns (found: bool)
    ensures found <==> exists y :: 0 <= y < |years| && years[y].closed && years[y].from <= d <= years[y].to
  {
    found := false;
    for y := 0 to |years|
      invariant found <==> exists k :: 0 <= k < y && years[k].closed && years[k].from <= d <= years[k].to
    {
      if years[y].closed && years[y].from <= d <= years[y].to {
        found := true;
      }
    }
  }

  method PostMove(db: Database, id: MoveId) returns (r: Result<nat>)
    modifies db`moves, db`nextNumber
    ensures Reply(db.View(), r) == ServiceModel.PostMove(old(db.View()), id)
  {
    if id >= |db.moves| {
      return Err(NotFound);
    }
    var m := db.moves[id];
    if !m.stage.Draft? {
      return Err(NotDraft);
    }
    if db.lock.Some? && m.date <= db.lock.value {
      return Err(PeriodLocked);
    }
    var closed := IsInClosedYear(db.years, m.date);
    if closed {
      return Err(YearClosed);
    }
    var verdict := ValidateBalanced(StoredAmounts(m.lines));
    if verdict.Err? {
      return Err(verdict.error);
    }
    var number;
    if m.number.Some? {
      number := m.number.value;
    } else {
      number := db.nextNumber;
      db.nextNumber := number + 1;
    }
    var docTotal := if m.total == 0 then verdict.value else m.total;
    db.Update(id, m.(stage := Posted, number := Some(number),
                     residual := if m.kind.Entry? then 0 else docTotal,
                     total := if m.kind.Entry? then m.total else docTotal));
    return Ok(number);
  }

  method CreateAndPost(db: Database, entry: NewMove) returns (r: Result<MoveId>)
    modifies db`moves, db`nextNumber
    ensures Reply(db.View(), r) == ServiceModel.CreateAndPost(db.chart, old(db.View()), entry)
  {
    var verdict := ValidateBalanced(InputAmounts(entry.lines));
    if verdict.Err? {
      return Err(verdict.error);
    }
    r := CreateMove(db, entry);
    if r.Ok? {
      var posted := PostMove(db, r.value);
      if posted.Err? {
        r := Err(posted.error);
      }
    }
  }

  // ─── unpost_move, reverse_move ──────────────────────────────────────

  method UnpostMove(db: Database, id: MoveId) returns (r: Result<()>)
    modifies db`moves
    ensures Reply(db.View(), r) == ServiceModel.UnpostMove(old(db.View()), id)
  {
    if id >= |db.moves| || !db.moves[id].stage.Posted? {
      return Err(NotPosted);
    }
    db.Update(id, db.moves[id].(stage := Draft, paymentState := NotPaid, residual := 0));
    return Ok(());
  }

  /** The mirrored lines of an entry, ready to be entered again. */
  method MirrorLines(lines: seq<Line>) returns (out: seq<NewLine>)
    ensures out == FromSen(Swapped(lines))
  {
    out := [];
    for i := 0 to |lines|
      invariant |out| == i && forall k :: 0 <= k < i ==> out[k] == FromSen(Swapped(lines))[k]
    {
      var l := lines[i];
      var foreign := if l.foreign.Some? then Some(Foreign(l.foreign.value.currency, -l.foreign.value.amount)) else None;
      out := out + [NewLine(l.account, l.credit * SCALE, l.debit * SCALE, foreign)];
    }
  }

  method ReverseMove(db: Database, id: MoveId, date: Date) returns (r: Result<MoveId>)
    modifies db`moves, db`nextNumber
    ensures Reply(db.View(), r) == ServiceModel.ReverseMove(db.chart, old(db.View()), id, date)
  {
    if id >= |db.moves| {
      return Err(NotFound);
    }
    var m := db.moves[id];
    if !m.stage.Posted? {
      return Err(NotPosted);
    }
    var lines := MirrorLines(m.lines);
    r := CreateAndPost(db, NewMove(m.journal, date, Entry, m.partner, lines));
    if r.Ok? && r.value < |db.moves| && id < |db.moves| {
      db.Update(r.value, db.moves[r.value].(reverses := Some(id)));
      db.Update(id, db.moves[id].(paymentState := Reversed));
    }
  }
}
