/** Recurring entries (`recurring.rs`): catching up generates every missed occurrence exactly once. */
module Recurring {
  import opened Wrappers
  import opened Ledger
  import opened Calendar
  import opened Rounding
  import opened ServiceModel
  import opened Invariant

  /** One row of `acc_recurring`; a template line is already parsed and rounded to sen. */
  datatype Template = Template(
    journal: string, interval: nat, next: Day, end: Option<Day>, autoPost: bool, lines: seq<Line>, active: bool)

  /** What was generated: which template, for which day, as which move. */
  datatype Made = Made(template: nat, date: Day, move: MoveId)

  /** The ledger, the templates, and the occurrences generated so far. */
  datatype Book = Book(db: State, templates: seq<Template>, made: seq<Made>)

  datatype BookReply<+T> = BookReply(book: Book, result: Result<T>)

  const RUNAWAY: nat := 1000

  predicate WithinEnd(t: Template, d: Day) {
    t.end.Some? ==> Number(d) <= Number(t.end.value)
  }

  predicate IsDue(t: Template, asOf: Date) {
    t.active && Number(t.next) <= asOf && WithinEnd(t, t.next)
  }

  function OccurrenceMove(t: Template, date: Day): NewMove {
    NewMove(t.journal, Number(date), Entry, None, FromSen(t.lines))
  }

  function CreateOccurrence(c: Chart, s: State, t: Template, date: Day): Reply<MoveId> {
    if t.autoPost then CreateAndPost(c, s, OccurrenceMove(t, date)) else CreateMove(c, s, OccurrenceMove(t, date))
  }

  /** The template after one occurrence: its date moves on, and it stops past its end. */
  function Advanced(t: Template): Template {
    var next := AdvanceMonths(t.next, t.interval);
    t.(next := next, active := t.active && WithinEnd(t, next))
  }

  function GenerateOccurrence(c: Chart, b: Book, id: nat, date: Day): BookReply<MoveId> {
    if id >= |b.templates| || !b.templates[id].active then BookReply(b, Err(TemplateInactive))
    else if |b.templates[id].lines| < 2 then BookReply(b, Err(TooFewLines))
    else
      var t := b.templates[id];
      var created := CreateOccurrence(c, b.db, t, date);
      if created.result.Err? then BookReply(b.(db := created.db), created.result)
      else BookReply(Book(created.db, b.templates[id := Advanced(t)], b.made + [Made(id, date, created.result.value)]), created.result)
  }

  /** The due templates among the first `n`, each with the day it is due for. */
  function DueList(templates: seq<Template>, asOf: Date, n: nat): seq<(nat, Day)>
    requires n <= |templates|
  {
    if n == 0 then []
    else
      var before := DueList(templates, asOf, n - 1);
      if IsDue(templates[n - 1], asOf) then before + [(n - 1, templates[n - 1].next)] else before
  }

  /** One pass over a due list; the first failure ends the job. */
  function Pass(c: Chart, b: Book, due: seq<(nat, Day)>): BookReply<()> {
    if due == [] then BookReply(b, Ok(()))
    else
      var before := Pass(c, b, due[..|due| - 1]);
      if before.result.Err? then before
      else
        var r := GenerateOccurrence(c, before.book, due[|due| - 1].0, due[|due| - 1].1);
        BookReply(r.book, if r.result.Ok? then Ok(()) else Err(r.result.error))
  }

  /** The loop of `generate_due`: pass after pass until nothing is due, or far too much was generated. */
  function CatchUp(c: Chart, b: Book, asOf: Date, generated: nat): BookReply<nat>
    decreases Max(0, RUNAWAY + 1 - generated)
  {
    var due := DueList(b.templates, asOf, |b.templates|);
    if due == [] then BookReply(b, Ok(generated))
    else
      var pass := Pass(c, b, due);
      if pass.result.Err? then BookReply(pass.book, Err(pass.result.error))
      else if generated + |due| > RUNAWAY then BookReply(pass.book, Err(Runaway))
      else CatchUp(c, pass.book, asOf, generated + |due|)
  }

  // ─── Nothing is due afterwards ──────────────────────────────────────

  lemma {:induction false} DueListIsComplete(templates: seq<Template>, asOf: Date, n: nat)
    requires n <= |templates|
    ensures var due := DueList(templates, asOf, n);
            && (forall k: nat :: k < n && IsDue(templates[k], asOf) ==> (k, templates[k].next) in due)
            && (forall x :: x in due ==> x.0 < n && IsDue(templates[x.0], asOf) && x.1 == templates[x.0].next)
            && (forall i, j :: 0 <= i < j < |due| ==> due[i].0 != due[j].0)
  {
    hide IsDue;
    if n > 0 {
      DueListIsComplete(templates, asOf, n - 1);
      var before := DueList(templates, asOf, n - 1);
      forall i | 0 <= i < |before| ensures before[i].0 != n - 1 {
        assert before[i] in before;
      }
    }
  }

  // ─── Each occurrence once ───────────────────────────────────────────

  /** The days generated for a template. */
  function DatesOf(made: seq<Made>, id: nat): seq<Day> {
    if made == [] then []
    else
      var before := DatesOf(made[..|made| - 1], id);
      if made[|made| - 1].template == id then before + [made[|made| - 1].date] else before
  }

  /** The first `n` occurrence days of a template: its next date advanced step by step. */
  function Occurrences(t: Template, n: nat): seq<Day> {
    seq(n, k requires 0 <= k < n => Steps(t.next, t.interval, k))
  }

  /** The template after `n` occurrences. */
  function Stepped(t: Template, n: nat): Template {
    if n == 0 then t else Advanced(Stepped(t, n - 1))
  }

  /**
   From `b` to `e` template `id` produced exactly its first `n` occurrences, each of which was due:
   not after the as-of date and not after the template's end.
   */
  ghost predicate CaughtUp(b: Book, e: Book, id: nat, asOf: Date, n: nat)
    requires id < |b.templates| && id < |e.templates|
  {
    && e.templates[id] == Stepped(b.templates[id], n)
    && DatesOf(e.made, id) == DatesOf(b.made, id) + Occurrences(b.templates[id], n)
    && (forall k: nat :: k < n ==> IsDue(Stepped(b.templates[id], k), asOf))
  }

  lemma {:induction false} SteppedNext(t: Template, n: nat)
    ensures Stepped(t, n) == t.(next := Steps(t.next, t.interval, n), active := Stepped(t, n).active)
  {
    if n > 0 {
      SteppedNext(t, n - 1);
    }
  }

  lemma DatesOfOneMore(made: seq<Made>, m: Made, id: nat)
    ensures DatesOf(made + [m], id) == DatesOf(made, id) + if m.template == id then [m.date] else []
  {
    assert (made + [m])[..|made|] == made;
  }

  /** One occurrence of template `x` advances it by one and leaves the others where they are. */
  lemma OccurrenceAdvances(c: Chart, b: Book, e: Book, x: nat, id: nat, asOf: Date, n: nat)
    requires |b.templates| == |e.templates| && id < |b.templates| && x < |e.templates|
    requires CaughtUp(b, e, id, asOf, n) && IsDue(e.templates[x], asOf)
    requires GenerateOccurrence(c, e, x, e.templates[x].next).result.Ok?
    ensures var r := GenerateOccurrence(c, e, x, e.templates[x].next).book;
            |r.templates| == |b.templates| && CaughtUp(b, r, id, asOf, if x == id then n + 1 else n)
  {
    hide CreateOccurrence, Advanced, IsDue, AdvanceMonths;
    var t := b.templates[id];
    var r := GenerateOccurrence(c, e, x, e.templates[x].next);
    DatesOfOneMore(e.made, Made(x, e.templates[x].next, r.result.value), id);
    if x == id {
      SteppedNext(t, n);
      assert Occurrences(t, n + 1) == Occurrences(t, n) + [Steps(t.next, t.interval, n)];
    }
  }

  /** How far each template has come. */
  type Counts = seq<nat>

  ghost predicate AllCaughtUp(b: Book, e: Book, asOf: Date, counts: Counts) {
    && |e.templates| == |b.templates| == |counts|
    && forall id: nat :: id < |counts| ==> CaughtUp(b, e, id, asOf, counts[id])
  }

  /** One pass advances every template on its list by one. */
  lemma LastIsAnother(due: seq<(nat, Day)>)
    requires due != [] && forall i, j :: 0 <= i < j < |due| ==> due[i].0 != due[j].0
    ensures var rest, last := due[..|due| - 1], due[|due| - 1];
            && last in due && (forall y :: y in rest ==> y in due && y.0 != last.0)
            && (forall y :: y in due ==> y in rest || y == last)
  {
    var rest, last := due[..|due| - 1], due[|due| - 1];
    assert due == rest + [last];
    forall y | y in rest ensures y in due && y.0 != last.0 {
      var i :| 0 <= i < |rest| && rest[i] == y;
      assert due[i] == y;
    }
  }

  lemma {:induction false} PassAdvances(c: Chart, b: Book, e: Book, asOf: Date, counts: Counts, due: seq<(nat, Day)>) returns (after: Counts)
    requires AllCaughtUp(b, e, asOf, counts) && Pass(c, e, due).result.Ok?
    requires forall x :: x in due ==> x.0 < |e.templates| && IsDue(e.templates[x.0], asOf) && x.1 == e.templates[x.0].next
    requires forall i, j :: 0 <= i < j < |due| ==> due[i].0 != due[j].0
    ensures AllCaughtUp(b, Pass(c, e, due).book, asOf, after)
    ensures forall x: nat :: x < |e.templates| && (forall y :: y in due ==> y.0 != x) ==>
              Pass(c, e, due).book.templates[x] == e.templates[x]
  {
    hide CaughtUp, GenerateOccurrence, IsDue;
    after := counts;
    if due != [] {
      var rest, last := due[..|due| - 1], due[|due| - 1];
      LastIsAnother(due);
      after := PassAdvances(c, b, e, asOf, counts, rest);
      var before := Pass(c, e, rest).book;
      assert before.templates[last.0] == e.templates[last.0];
      after := OneMoreOccurrence(c, b, before, last.0, asOf, after);
    }
  }

  lemma OneMoreOccurrence(c: Chart, b: Book, e: Book, x: nat, asOf: Date, counts: Counts) returns (after: Counts)
    requires AllCaughtUp(b, e, asOf, counts) && x < |e.templates| && IsDue(e.templates[x], asOf)
    requires GenerateOccurrence(c, e, x, e.templates[x].next).result.Ok?
    ensures var r := GenerateOccurrence(c, e, x, e.templates[x].next).book;
            && AllCaughtUp(b, r, asOf, after)
            && (forall y: nat :: y < |e.templates| && y != x ==> r.templates[y] == e.templates[y])
  {
    after := counts[x := counts[x] + 1];
    var r := GenerateOccurrence(c, e, x, e.templates[x].next).book;
    assert |r.templates| == |e.templates| && forall y: nat :: y < |e.templates| && y != x ==> r.templates[y] == e.templates[y];
    hide CaughtUp, GenerateOccurrence, IsDue;
    forall id: nat | id < |after| ensures CaughtUp(b, r, id, asOf, after[id]) {
      OccurrenceAdvances(c, b, e, x, id, asOf, counts[id]);
    }
  }

  lemma {:induction false} CatchUpFrom(c: Chart, b: Book, e: Book, asOf: Date, generated: nat, counts: Counts) returns (after: Counts)
    requires AllCaughtUp(b, e, asOf, counts) && CatchUp(c, e, asOf, generated).result.Ok?
    ensures AllCaughtUp(b, CatchUp(c, e, asOf, generated).book, asOf, after)
    ensures DueList(CatchUp(c, e, asOf, generated).book.templates, asOf, |e.templates|) == []
    decreases Max(0, RUNAWAY + 1 - generated)
  {
    hide CaughtUp, Pass, IsDue;
    var due := DueList(e.templates, asOf, |e.templates|);
    after := counts;
    if due != [] {
      DueListIsComplete(e.templates, asOf, |e.templates|);
      var middle := PassAdvances(c, b, e, asOf, counts, due);
      after := CatchUpFrom(c, b, Pass(c, e, due).book, asOf, generated + |due|, middle);
    }
  }

  lemma NothingMadeYet(b: Book, asOf: Date) returns (counts: Counts)
    ensures AllCaughtUp(b, b, asOf, counts)
  {
    counts := seq(|b.templates|, i => 0);
    forall id: nat | id < |counts| ensures CaughtUp(b, b, id, asOf, counts[id]) {
      assert Occurrences(b.templates[id], 0) == [];
    }
  }

  lemma {:induction false} FaultsAre(lines: seq<Amount>)
    ensures FirstFault(lines).Some? ==> FirstFault(lines).value in {NegativeAmount, TwoSidedLine}
  {
    if lines != [] {
      FaultsAre(lines[..|lines| - 1]);
    }
  }

  /** The ledger itself never answers that a job has run away. */
  lemma OccurrenceIsNoRunaway(c: Chart, s: State, t: Template, day: Day)
    ensures CreateOccurrence(c, s, t, day).result != Err(Runaway)
  {
    var entry := OccurrenceMove(t, day);
    FaultsAre(InputAmounts(entry.lines));
    var created := CreateMove(c, s, entry);
    if created.result.Ok? {
      FaultsAre(StoredAmounts(created.db.moves[created.result.value].lines));
    }
  }

  lemma {:induction false} PassMakes(c: Chart, b: Book, due: seq<(nat, Day)>)
    ensures Pass(c, b, due).result.Ok? ==> |Pass(c, b, due).book.made| == |b.made| + |due|
    ensures Pass(c, b, due).result != Err(Runaway)
  {
    hide CreateOccurrence, Advanced;
    if due != [] {
      var before := Pass(c, b, due[..|due| - 1]);
      PassMakes(c, b, due[..|due| - 1]);
      var last := due[|due| - 1];
      if last.0 < |before.book.templates| {
        OccurrenceIsNoRunaway(c, before.book.db, before.book.templates[last.0], last.1);
      }
    }
  }

  lemma {:induction false} CatchUpMakes(c: Chart, b: Book, asOf: Date, generated: nat, start: nat)
    requires |b.made| == start + generated && generated <= 1000
    ensures var r := CatchUp(c, b, asOf, generated);
            && (r.result.Ok? ==> |r.book.made| == start + r.result.value && r.result.value <= 1000)
            && (r.result == Err(Runaway) ==> |r.book.made| > start + 1000)
    decreases Max(0, RUNAWAY + 1 - generated)
  {
    hide Pass, DueList;
    var due := DueList(b.templates, asOf, |b.templates|);
    if due != [] {
      PassMakes(c, b, due);
      var pass := Pass(c, b, due);
      if pass.result.Ok? && generated + |due| <= 1000 {
        CatchUpMakes(c, pass.book, asOf, generated + |due|, start);
      }
    }
  }

  /** The job answers with the number of entries it made, at most 1000; it runs away only with more than that made. */
  lemma RunawayIsOver1000(c: Chart, b: Book, asOf: Date)
    ensures var r := CatchUp(c, b, asOf, 0);
            && (r.result.Ok? ==> |r.book.made| == |b.made| + r.result.value && r.result.value <= 1000)
            && (r.result == Err(Runaway) ==> |r.book.made| > |b.made| + 1000)
  {
    CatchUpMakes(c, b, asOf, 0, |b.made|);
  }

  // ─── What is in the ledger ──────────────────────────────────────────

  /** The move generated for an occurrence: the template's lines on that day, posted if the template says so. */
  ghost predicate MadeFrom(t: Template, day: Day, row: Move) {
    && row.date == Number(day) && row.journal == t.journal && row.kind.Entry? && SameLines(t.lines, row.lines)
    && (if t.autoPost then row.stage.Posted? else row.stage.Draft?)
  }

  /** From `b` to `e` the ledger has gained exactly the generated moves, in the order of the log, and nothing else. */
  ghost predicate Recorded(b: Book, e: Book) {
    && |e.templates| == |b.templates| && b.made <= e.made
    && |e.db.moves| == |b.db.moves| + |e.made| - |b.made| && b.db.moves <= e.db.moves
    && (forall id :: 0 <= id < |b.templates| ==>
          e.templates[id] == b.templates[id].(next := e.templates[id].next, active := e.templates[id].active))
    && (forall k :: |b.made| <= k < |e.made| ==>
          && e.made[k].template < |b.templates| && e.made[k].move == |b.db.moves| + k - |b.made|
          && MadeFrom(b.templates[e.made[k].template], e.made[k].date, e.db.moves[e.made[k].move]))
  }

  lemma StoredAreSame(lines: seq<Line>)
    ensures SameLines(lines, StoredLines(FromSen(lines)))
  {
    forall i | 0 <= i < |lines| ensures lines[i].(reconciled := StoredLines(FromSen(lines))[i].reconciled) == StoredLines(FromSen(lines))[i] {
      RoundIsIdentity(lines[i].debit, SCALE);
      RoundIsIdentity(lines[i].credit, SCALE);
    }
  }

  /** One occurrence is one new move. */
  lemma OccurrenceRow(c: Chart, s: State, t: Template, day: Day)
    requires CreateOccurrence(c, s, t, day).result.Ok?
    ensures var r := CreateOccurrence(c, s, t, day);
            && r.result.value == |s.moves| && |r.db.moves| == |s.moves| + 1 && s.moves <= r.db.moves
            && MadeFrom(t, day, r.db.moves[|s.moves|])
  {
    StoredAreSame(t.lines);
    if t.autoPost {
      CreateAndPostOfDecimals(c, s, OccurrenceMove(t, day));
      hide CreateAndPost;
    }
  }

  lemma OccurrenceRecorded(c: Chart, b: Book, e: Book, id: nat, day: Day)
    requires Recorded(b, e) && GenerateOccurrence(c, e, id, day).result.Ok?
    ensures Recorded(b, GenerateOccurrence(c, e, id, day).book)
  {
    OccurrenceRow(c, e.db, e.templates[id], day);
    hide CreateOccurrence, SameLines, Number, AdvanceMonths, WithinEnd;
    var r := GenerateOccurrence(c, e, id, day).book;
    assert r.made == e.made + [Made(id, day, |e.db.moves|)];
    forall k | |b.made| <= k < |r.made|
      ensures r.made[k].template < |b.templates| && r.made[k].move == |b.db.moves| + k - |b.made|
      ensures MadeFrom(b.templates[r.made[k].template], r.made[k].date, r.db.moves[r.made[k].move])
    {
      if k < |e.made| {
        assert r.db.moves[e.made[k].move] == e.db.moves[e.made[k].move];
      }
    }
  }

  lemma {:induction false} PassRecorded(c: Chart, b: Book, e: Book, due: seq<(nat, Day)>)
    requires Recorded(b, e) && Pass(c, e, due).result.Ok?
    ensures Recorded(b, Pass(c, e, due).book)
  {
    hide Recorded, GenerateOccurrence;
    if due != [] {
      PassRecorded(c, b, e, due[..|due| - 1]);
      OccurrenceRecorded(c, b, Pass(c, e, due[..|due| - 1]).book, due[|due| - 1].0, due[|due| - 1].1);
    }
  }

  lemma {:induction false} CatchUpRecorded(c: Chart, b: Book, e: Book, asOf: Date, generated: nat)
    requires Recorded(b, e) && CatchUp(c, e, asOf, generated).result.Ok?
    ensures Recorded(b, CatchUp(c, e, asOf, generated).book)
    decreases Max(0, RUNAWAY + 1 - generated)
  {
    hide Recorded, Pass, DueList;
    var due := DueList(e.templates, asOf, |e.templates|);
    if due != [] {
      PassRecorded(c, b, e, due);
      CatchUpRecorded(c, b, Pass(c, e, due).book, asOf, generated + |due|);
    }
  }

  lemma NothingRecordedYet(b: Book)
    ensures Recorded(b, b)
  {
  }

  /**
   When the job returns normally no template is due, and each template has generated exactly its
   missed occurrences: the iterates of its next date up to the as-of date and its end, each once and
   in order. The ledger has gained exactly one move for each of them, and nothing else.
   */
  lemma CatchUpIsExact(c: Chart, b: Book, asOf: Date) returns (counts: Counts)
    requires CatchUp(c, b, asOf, 0).result.Ok?
    ensures var e := CatchUp(c, b, asOf, 0).book;
            && AllCaughtUp(b, e, asOf, counts) && Recorded(b, e)
            && (forall id: nat :: id < |e.templates| ==> !IsDue(e.templates[id], asOf))
  {
    NothingRecordedYet(b);
    CatchUpRecorded(c, b, b, asOf, 0);
    var start := NothingMadeYet(b, asOf);
    counts := CatchUpFrom(c, b, b, asOf, 0, start);
    var e := CatchUp(c, b, asOf, 0).book;
    hide CatchUp, CaughtUp, IsDue, Recorded;
    DueListIsComplete(e.templates, asOf, |e.templates|);
  }

  /**
   What that says about days: an active template has generated precisely the iterates of its next date
   that fall on or before both the as-of date and its end, and its next date is the first that does not.
   */
  lemma OccurrencesAreTheDueOnes(b: Book, e: Book, id: nat, asOf: Date, n: nat)
    requires id < |b.templates| && id < |e.templates| && CaughtUp(b, e, id, asOf, n) && !IsDue(e.templates[id], asOf)
    requires var t := b.templates[id]; t.active && t.next.Valid() && t.interval > 0
    ensures var t := b.templates[id];
            && e.templates[id].next == Steps(t.next, t.interval, n)
            && (forall k: nat :: k < n <==>
                  Number(Steps(t.next, t.interval, k)) <= asOf &&
                  (t.end.Some? ==> Number(Steps(t.next, t.interval, k)) <= Number(t.end.value)))
  {
    var t := b.templates[id];
    SteppedNext(t, n);
    forall k: nat | k < n
      ensures Number(Steps(t.next, t.interval, k)) <= asOf && WithinEnd(t, Steps(t.next, t.interval, k))
    {
      SteppedNext(t, k);
      assert IsDue(Stepped(t, k), asOf);
    }
    StillActive(t, n, asOf);
    forall k: nat | Number(Steps(t.next, t.interval, k)) <= asOf && WithinEnd(t, Steps(t.next, t.interval, k)) ensures k < n {
      if k >= n {
        StepsIncrease(t.next, t.interval, n, k);
      }
    }
  }

  /** A template stays active exactly as long as its next day is within its end. */
  lemma StillActive(t: Template, n: nat, asOf: Date)
    requires t.active && (forall k: nat :: k < n ==> IsDue(Stepped(t, k), asOf))
    ensures Stepped(t, n).active || !WithinEnd(t, Steps(t.next, t.interval, n))
  {
    hide Number, AdvanceMonths, Steps;
    if n == 0 {
      assert Stepped(t, 0) == t;
    } else {
      SteppedNext(t, n);
      assert IsDue(Stepped(t, n - 1), asOf);
    }
  }

  lemma {:induction false} StepsIncrease(d: Day, months: nat, i: nat, k: nat)
    requires d.Valid() && months > 0 && i <= k
    ensures Number(Steps(d, months, i)) <= Number(Steps(d, months, k))
    ensures i < k ==> Number(Steps(d, months, i)) < Number(Steps(d, months, k))
    decreases k
  {
    hide Number, AdvanceMonths;
    if i < k {
      StepsIncrease(d, months, i, k - 1);
      StepsByMonth(d, months, k - 1);
      AdvanceIsLater(Steps(d, months, k - 1), months);
    }
  }
}
