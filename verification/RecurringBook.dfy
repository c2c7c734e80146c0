/** The recurring-entry job (`recurring.rs`) on the table of templates. */
module RecurringBook {
  import opened Wrappers
  import opened Ledger
  import opened Tables
  import opened Calendar
  import opened ServiceModel
  import opened Recurring
  import Service

  /** `acc_recurring` beside the ledger. */
  class Templates {
    const db: Database
    var templates: seq<Template>
    var made: seq<Made>

    function View(): Book
      reads this, db
    {
      Book(db.View(), templates, made)
    }

    constructor (db: Database)
      ensures this.db == db && templates == [] && made == []
    {
      this.db := db;
      templates, made := [], [];
    }

    method GenerateOccurrence(id: nat, date: Day) returns (r: Result<MoveId>)
      modifies this`templates, this`made, db`moves, db`nextNumber
      ensures BookReply(View(), r) == Recurring.GenerateOccurrence(db.chart, old(View()), id, date)
    {
      hide CreateAndPost, CreateMove, AdvanceMonths, Number;
      if id >= |templates| || !templates[id].active {
        return Err(TemplateInactive);
      }
      var t := templates[id];
      if |t.lines| < 2 {
        return Err(TooFewLines);
      }
      if t.autoPost {
        r := Service.CreateAndPost(db, OccurrenceMove(t, date));
      } else {
        r := Service.CreateMove(db, OccurrenceMove(t, date));
      }
      if r.Err? {
        return;
      }
      var next := AdvanceMonths(t.next, t.interval);
      templates := templates[id := t.(next := next, active := t.active && WithinEnd(t, next))];
      made := made + [Made(id, date, r.value)];
    }

    /** The templates that are due, each with its day. */
    method FindDue(asOf: Date) returns (due: seq<(nat, Day)>)
      ensures due == DueList(templates, asOf, |templates|)
    {
      due := [];
      for k := 0 to |templates|
        invariant due == DueList(templates, asOf, k)
      {
        if IsDue(templates[k], asOf) {
          due := due + [(k, templates[k].next)];
        }
      }
    }

    /** One occurrence for each of them; the first failure ends the job. */
    method GeneratePass(due: seq<(nat, Day)>) returns (r: Result<()>)
      modifies this`templates, this`made, db`moves, db`nextNumber
      ensures BookReply(View(), r) == Pass(db.chart, old(View()), due)
    {
      hide Recurring.GenerateOccurrence;
      for i := 0 to |due|
        invariant BookReply(View(), Ok(())) == Pass(db.chart, old(View()), due[..i])
      {
        assert due[..i + 1][..i] == due[..i];
        var one := GenerateOccurrence(due[i].0, due[i].1);
        if one.Err? {
          FailedPass(db.chart, old(View()), due, i + 1);
          return Err(one.error);
        }
      }
      assert due[..|due|] == due;
      r := Ok(());
    }

    /** Every overdue template catches up one occurrence per pass. */
    method GenerateDue(asOf: Date) returns (r: Result<nat>)
      modifies this`templates, this`made, db`moves, db`nextNumber
      ensures BookReply(View(), r) == CatchUp(db.chart, old(View()), asOf, 0)
    {
      hide Pass, DueList;
      var generated := 0;
      var due := FindDue(asOf);
      while due != []
        invariant generated <= RUNAWAY
        invariant due == DueList(templates, asOf, |templates|)
        invariant CatchUp(db.chart, old(View()), asOf, 0) == CatchUp(db.chart, View(), asOf, generated)
        decreases RUNAWAY + 1 - generated
      {
        var pass := GeneratePass(due);
        if pass.Err? {
          return Err(pass.error);
        }
        generated := generated + |due|;
        if generated > RUNAWAY {
          return Err(Runaway);
        }
        due := FindDue(asOf);
      }
      return Ok(generated);
    }
  }

  lemma {:induction false} FailedPass(c: Chart, b: Book, due: seq<(nat, Day)>, i: nat)
    requires i <= |due| && Pass(c, b, due[..i]).result.Err?
    ensures Pass(c, b, due) == Pass(c, b, due[..i])
    decreases |due| - i
  {
    if i == |due| {
      assert due[..i] == due;
    } else {
      assert due[..i + 1][..i] == due[..i];
      FailedPass(c, b, due, i + 1);
    }
  }
}
