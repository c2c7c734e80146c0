/** The accounting database: the tables as fields that the services rewrite row by row. */
module Tables {
  import opened Wrappers
  import opened Ledger

  class Database {
    const chart: Chart
    var moves: seq<Move>
    var recs: seq<Reconcile>
    var lock: Option<Date>
    var taxLock: Option<Date>
    var years: seq<FiscalYear>
    var nextNumber: nat

    /** The tables as one value. */
    function View(): State
      reads this
    {
      State(moves, recs, lock, taxLock, years, nextNumber)
    }

    constructor (chart: Chart)
      ensures this.chart == chart && View() == State([], [], None, None, [], 0)
    {
      this.chart := chart;
      moves, recs, lock, taxLock, years, nextNumber := [], [], None, None, [], 0;
    }

    /** UPDATE of one move. */
    method Update(id: MoveId, row: Move)
      requires id < |moves|
      modifies this`moves
      ensures View() == old(View()).(moves := old(moves)[id := row])
    {
      moves := moves[id := row];
    }

    /** INSERT of one move. */
    method Insert(row: Move) returns (id: MoveId)
      modifies this`moves
      ensures View() == old(View()).(moves := old(moves) + [row]) && id == |old(moves)|
    {
      id := |moves|;
      moves := moves + [row];
    }

    /** INSERT of one reconciliation. */
    method Reconcile(r: Reconcile)
      modifies this`recs
      ensures View() == old(View()).(recs := old(recs) + [r])
    {
      recs := recs + [r];
    }
  }
}
