/**
 Automatic matching of bank-statement lines with GL lines (`banking.rs`): a greedy loop, and why nothing
 could match more lines. A line is identified by its position in its list.
 */
module AutoMatch {
  import opened Wrappers
  import opened Ledger

  /** A statement line, or a GL line of the bank account with its signed amount (debit is money in). */
  datatype BankLine = BankLine(date: Date, amount: int)

  datatype Suggestion = Suggestion(statement: nat, gl: nat, score: nat)

  /** How well two lines fit: nothing unless the amounts agree, then by distance in days. */
  function MatchScore(statement: BankLine, gl: BankLine): nat {
    if statement.amount != gl.amount then 0
    else
      var days := Abs(statement.date - gl.date);
      if days == 0 then 100 else if days <= 3 then 80 else if days <= 7 then 60 else if days <= 30 then 30 else 5
  }

  lemma ScoreIsPositive(statement: BankLine, gl: BankLine)
    ensures MatchScore(statement, gl) > 0 <==> statement.amount == gl.amount
  {
  }

  /** The bands: the same day 100, up to three days apart 80, up to a week 60, up to thirty days 30, and 5 beyond that. */
  lemma ScoreBands(statement: BankLine, gl: BankLine)
    requires statement.amount == gl.amount
    ensures MatchScore(statement, gl) == 100 <==> statement.date == gl.date
    ensures MatchScore(statement, gl) >= 80 <==> statement.date - 3 <= gl.date <= statement.date + 3
    ensures MatchScore(statement, gl) >= 60 <==> statement.date - 7 <= gl.date <= statement.date + 7
    ensures MatchScore(statement, gl) >= 30 <==> statement.date - 30 <= gl.date <= statement.date + 30
    ensures MatchScore(statement, gl) in {5, 30, 60, 80, 100}
  {
  }

  // ─── The greedy choice ──────────────────────────────────────────────

  /** The first GL line with the best positive score among the first `n` that are still free. */
  function Best(line: BankLine, gls: seq<BankLine>, used: set<nat>, n: nat): (r: Option<nat>)
    requires n <= |gls|
    ensures r.Some? ==> r.value < n && r.value !in used && MatchScore(line, gls[r.value]) > 0
    ensures r.None? ==> forall k: nat :: k < n && k !in used ==> MatchScore(line, gls[k]) == 0
  {
    if n == 0 then None
    else
      var before := Best(line, gls, used, n - 1);
      var score := MatchScore(line, gls[n - 1]);
      if n - 1 !in used && score > 0 && (before.Some? ==> score > MatchScore(line, gls[before.value]))
      then Some(n - 1) else before
  }

  /** The GL lines that suggestions use up. */
  function UsedBy(out: seq<Suggestion>): set<nat> {
    set x | x in out :: x.gl
  }

  /** The suggestions for the first `n` statement lines. */
  function Suggested(statements: seq<BankLine>, gls: seq<BankLine>, n: nat): seq<Suggestion>
    requires n <= |statements|
  {
    if n == 0 then []
    else
      var before := Suggested(statements, gls, n - 1);
      match Best(statements[n - 1], gls, UsedBy(before), |gls|)
      case None => before
      case Some(k) => before + [Suggestion(n - 1, k, MatchScore(statements[n - 1], gls[k]))]
  }

  /** The loop of `auto_match_suggestions`. */
  method AutoMatchSuggestions(statements: seq<BankLine>, gls: seq<BankLine>) returns (out: seq<Suggestion>)
    ensures out == Suggested(statements, gls, |statements|)
  {
    var used: set<nat> := {};
    out := [];
    for i := 0 to |statements|
      invariant out == Suggested(statements, gls, i)
      invariant used == UsedBy(out)
    {
      var line := statements[i];
      var best: Option<nat> := None;
      for k := 0 to |gls|
        invariant best == Best(line, gls, used, k)
      {
        if k !in used {
          var score := MatchScore(line, gls[k]);
          if score > 0 && (best.Some? ==> score > MatchScore(line, gls[best.value])) {
            best := Some(k);
          }
        }
      }
      if best.Some? {
        var suggestion := Suggestion(i, best.value, MatchScore(line, gls[best.value]));
        UsedByOneMore(out, suggestion);
        used := used + {best.value};
        out := out + [suggestion];
      }
    }
  }

  lemma UsedByOneMore(out: seq<Suggestion>, x: Suggestion)
    ensures UsedBy(out + [x]) == UsedBy(out) + {x.gl}
  {
    assert x in out + [x];
    assert forall y :: y in out ==> y in out + [x];
  }

  /** No free GL line would have scored higher, and none before it as high: the first of the best is taken. */
  lemma {:induction false} BestIsBest(line: BankLine, gls: seq<BankLine>, used: set<nat>, n: nat)
    requires n <= |gls| && Best(line, gls, used, n).Some?
    ensures forall k: nat :: k < n && k !in used ==>
              MatchScore(line, gls[k]) <= MatchScore(line, gls[Best(line, gls, used, n).value])
    ensures forall k: nat :: k < Best(line, gls, used, n).value && k !in used ==>
              MatchScore(line, gls[k]) < MatchScore(line, gls[Best(line, gls, used, n).value])
  {
    if n > 0 && Best(line, gls, used, n - 1).Some? {
      BestIsBest(line, gls, used, n - 1);
    }
  }

  // ─── One to one, equal amounts ──────────────────────────────────────

  type Pairing = set<(nat, nat)>

  /** Each statement line at most once, each GL line at most once, amounts equal. */
  ghost predicate Assignment(statements: seq<BankLine>, gls: seq<BankLine>, pairs: Pairing) {
    && (forall p :: p in pairs ==> p.0 < |statements| && p.1 < |gls| && statements[p.0].amount == gls[p.1].amount)
    && (forall p, q :: p in pairs && q in pairs && (p.0 == q.0 || p.1 == q.1) ==> p == q)
  }

  ghost function PairsOf(out: seq<Suggestion>): Pairing {
    set x | x in out :: (x.statement, x.gl)
  }

  /** A statement line without a partner finds all GL lines of its amount taken. */
  ghost predicate Maximal(statements: seq<BankLine>, gls: seq<BankLine>, pairs: Pairing, n: nat) {
    forall i: nat, k: nat :: i < n && i < |statements| && k < |gls| && statements[i].amount == gls[k].amount ==>
      i in Lefts(pairs) || k in Rights(pairs)
  }

  ghost function Lefts(pairs: Pairing): set<nat> {
    set p | p in pairs :: p.0
  }

  ghost function Rights(pairs: Pairing): set<nat> {
    set p | p in pairs :: p.1
  }

  lemma PairsOfOneMore(out: seq<Suggestion>, x: Suggestion)
    ensures PairsOf(out + [x]) == PairsOf(out) + {(x.statement, x.gl)}
  {
    assert x in out + [x];
    assert forall y :: y in out ==> y in out + [x];
  }

  lemma RightsAreUsed(out: seq<Suggestion>)
    ensures Rights(PairsOf(out)) == UsedBy(out)
  {
    forall k | k in UsedBy(out) ensures k in Rights(PairsOf(out)) {
      var x :| x in out && x.gl == k;
      assert (x.statement, x.gl) in PairsOf(out);
    }
  }

  lemma AddPair(statements: seq<BankLine>, gls: seq<BankLine>, pairs: Pairing, i: nat, k: nat)
    requires Assignment(statements, gls, pairs) && i < |statements| && k < |gls| && statements[i].amount == gls[k].amount
    requires i !in Lefts(pairs) && k !in Rights(pairs)
    ensures Assignment(statements, gls, pairs + {(i, k)})
    ensures Lefts(pairs + {(i, k)}) == Lefts(pairs) + {i} && Rights(pairs + {(i, k)}) == Rights(pairs) + {k}
  {
    assert forall p :: p in pairs ==> p.0 in Lefts(pairs) && p.1 in Rights(pairs);
    assert (i, k) in pairs + {(i, k)};
  }

  lemma MaximalAfterPair(statements: seq<BankLine>, gls: seq<BankLine>, pairs: Pairing, n: nat, k: nat)
    requires Maximal(statements, gls, pairs, n)
    ensures Maximal(statements, gls, pairs + {(n, k)}, n + 1)
  {
    var more := pairs + {(n, k)};
    assert (n, k) in more && n in Lefts(more);
    forall i | i in Lefts(pairs) ensures i in Lefts(more) {
      var p :| p in pairs && p.0 == i;
      assert p in more;
    }
    forall i | i in Rights(pairs) ensures i in Rights(more) {
      var p :| p in pairs && p.1 == i;
      assert p in more;
    }
  }

  lemma MaximalWithout(statements: seq<BankLine>, gls: seq<BankLine>, out: seq<Suggestion>, n: nat)
    requires n < |statements| && Maximal(statements, gls, PairsOf(out), n)
    requires Best(statements[n], gls, UsedBy(out), |gls|).None?
    ensures Maximal(statements, gls, PairsOf(out), n + 1)
  {
    RightsAreUsed(out);
    forall k: nat | k < |gls| && statements[n].amount == gls[k].amount ensures k in Rights(PairsOf(out)) {
      ScoreIsPositive(statements[n], gls[k]);
    }
  }

  /** What a list of suggestions must be. */
  ghost predicate Sound(statements: seq<BankLine>, gls: seq<BankLine>, out: seq<Suggestion>, n: nat) {
    && Assignment(statements, gls, PairsOf(out)) && |PairsOf(out)| == |out|
    && (forall x :: x in out ==> x.statement < n && n <= |statements| && x.gl < |gls| &&
                                 x.score == MatchScore(statements[x.statement], gls[x.gl]) > 0)
  }

  lemma SoundWithPair(statements: seq<BankLine>, gls: seq<BankLine>, out: seq<Suggestion>, n: nat, k: nat)
    requires n < |statements| && Sound(statements, gls, out, n)
    requires k < |gls| && k !in UsedBy(out) && MatchScore(statements[n], gls[k]) > 0
    ensures Sound(statements, gls, out + [Suggestion(n, k, MatchScore(statements[n], gls[k]))], n + 1)
  {
    var x := Suggestion(n, k, MatchScore(statements[n], gls[k]));
    RightsAreUsed(out);
    PairsOfOneMore(out, x);
    assert n !in Lefts(PairsOf(out));
    AddPair(statements, gls, PairsOf(out), n, k);
    assert (n, k) !in PairsOf(out);
  }

  /** One statement line more. */
  lemma GreedyStep(statements: seq<BankLine>, gls: seq<BankLine>, before: seq<Suggestion>, n: nat)
    requires n < |statements| && Sound(statements, gls, before, n) && Maximal(statements, gls, PairsOf(before), n)
    ensures var best := Best(statements[n], gls, UsedBy(before), |gls|);
            var out := if best.None? then before
                       else before + [Suggestion(n, best.value, MatchScore(statements[n], gls[best.value]))];
            Sound(statements, gls, out, n + 1) && Maximal(statements, gls, PairsOf(out), n + 1)
  {
    hide Sound, Maximal, PairsOf, UsedBy, MatchScore;
    var best := Best(statements[n], gls, UsedBy(before), |gls|);
    hide Best;
    if best.Some? {
      PairsOfOneMore(before, Suggestion(n, best.value, MatchScore(statements[n], gls[best.value])));
      SoundWithPair(statements, gls, before, n, best.value);
      MaximalAfterPair(statements, gls, PairsOf(before), n, best.value);
    } else {
      MaximalWithout(statements, gls, before, n);
      SoundOneLater(statements, gls, before, n);
    }
  }

  lemma NothingSuggested(statements: seq<BankLine>, gls: seq<BankLine>)
    ensures Sound(statements, gls, [], 0) && Maximal(statements, gls, PairsOf([]), 0)
  {
    assert PairsOf([]) == {};
  }

  /** The loop yields a one-to-one, equal-amount assignment to which no free pair can be added. */
  lemma {:induction false} GreedyIsMaximal(statements: seq<BankLine>, gls: seq<BankLine>, n: nat)
    requires n <= |statements|
    ensures var out := Suggested(statements, gls, n);
            Sound(statements, gls, out, n) && Maximal(statements, gls, PairsOf(out), n)
  {
    hide Sound, Maximal, Best, PairsOf, UsedBy, MatchScore;
    if n == 0 {
      NothingSuggested(statements, gls);
    } else {
      GreedyIsMaximal(statements, gls, n - 1);
      GreedyStep(statements, gls, Suggested(statements, gls, n - 1), n - 1);
    }
  }

  lemma SoundOneLater(statements: seq<BankLine>, gls: seq<BankLine>, out: seq<Suggestion>, n: nat)
    requires n < |statements| && Sound(statements, gls, out, n)
    ensures Sound(statements, gls, out, n + 1)
  {
  }

  // ─── A maximum matching ─────────────────────────────────────────────

  lemma {:induction false} LeftsCount(pairs: Pairing)
    requires forall p, q :: p in pairs && q in pairs && p.0 == q.0 ==> p == q
    ensures |Lefts(pairs)| == |pairs|
    decreases |pairs|
  {
    if pairs != {} {
      var p :| p in pairs;
      LeftsCount(pairs - {p});
      assert Lefts(pairs) == Lefts(pairs - {p}) + {p.0};
    }
  }

  lemma {:induction false} RightsCount(pairs: Pairing)
    requires forall p, q :: p in pairs && q in pairs && p.1 == q.1 ==> p == q
    ensures |Rights(pairs)| == |pairs|
    decreases |pairs|
  {
    if pairs != {} {
      var p :| p in pairs;
      RightsCount(pairs - {p});
      assert Rights(pairs) == Rights(pairs - {p}) + {p.1};
    }
  }

  lemma SubsetCount(a: set<nat>, b: set<nat>)
    requires a <= b
    ensures |a| <= |b|
  {
    assert b == a + (b - a);
  }

  /** The statement lines, or GL lines, of one amount. */
  ghost function OfAmount(lines: seq<BankLine>, amount: int): set<nat> {
    set i: nat | i < |lines| && lines[i].amount == amount
  }

  ghost function PairsOfAmount(statements: seq<BankLine>, pairs: Pairing, amount: int): Pairing {
    set p | p in pairs && p.0 < |statements| && statements[p.0].amount == amount
  }

  /** Per amount no assignment can match more than the scarcer side has. */
  lemma AmountBound(statements: seq<BankLine>, gls: seq<BankLine>, pairs: Pairing, amount: int)
    requires Assignment(statements, gls, pairs)
    ensures |PairsOfAmount(statements, pairs, amount)| <= Min(|OfAmount(statements, amount)|, |OfAmount(gls, amount)|)
  {
    var own := PairsOfAmount(statements, pairs, amount);
    LeftsCount(own);
    RightsCount(own);
    SubsetCount(Lefts(own), OfAmount(statements, amount));
    SubsetCount(Rights(own), OfAmount(gls, amount));
  }

  /** Per amount a maximal assignment matches exactly as much as the scarcer side has. */
  lemma MaximalPerAmount(statements: seq<BankLine>, gls: seq<BankLine>, pairs: Pairing, amount: int)
    requires Assignment(statements, gls, pairs) && Maximal(statements, gls, pairs, |statements|)
    ensures |PairsOfAmount(statements, pairs, amount)| == Min(|OfAmount(statements, amount)|, |OfAmount(gls, amount)|)
  {
    var own := PairsOfAmount(statements, pairs, amount);
    AmountBound(statements, gls, pairs, amount);
    LeftsCount(own);
    RightsCount(own);
    if OfAmount(statements, amount) <= Lefts(own) {
      SubsetCount(OfAmount(statements, amount), Lefts(own));
    } else {
      var i :| i in OfAmount(statements, amount) && i !in Lefts(own);
      forall k | k in OfAmount(gls, amount) ensures k in Rights(own) {
        MatchedInAmount(statements, pairs, i, amount);
        var p :| p in pairs && p.1 == k;
        assert p in own;
      }
      SubsetCount(OfAmount(gls, amount), Rights(own));
    }
  }

  lemma MatchedInAmount(statements: seq<BankLine>, pairs: Pairing, i: nat, amount: int)
    requires i < |statements| && statements[i].amount == amount
    ensures i in Lefts(pairs) <==> i in Lefts(PairsOfAmount(statements, pairs, amount))
  {
    forall p | p in pairs && p.0 == i ensures p in PairsOfAmount(statements, pairs, amount) {
    }
  }

  /** An assignment is made up of its amounts: none larger than in the other, none larger in total. */
  lemma {:induction false} FewerPerAmount(statements: seq<BankLine>, gls: seq<BankLine>, a: Pairing, b: Pairing)
    requires Assignment(statements, gls, a) && Assignment(statements, gls, b)
    requires forall v :: |PairsOfAmount(statements, a, v)| <= |PairsOfAmount(statements, b, v)|
    ensures |a| <= |b|
    decreases |a|
  {
    if a != {} {
      var p :| p in a;
      var v := statements[p.0].amount;
      var a1, b1 := PairsOfAmount(statements, a, v), PairsOfAmount(statements, b, v);
      assert p in a1;
      forall u ensures |PairsOfAmount(statements, a - a1, u)| <= |PairsOfAmount(statements, b - b1, u)| {
        if u == v {
          assert PairsOfAmount(statements, a - a1, u) == {};
        } else {
          assert PairsOfAmount(statements, a - a1, u) == PairsOfAmount(statements, a, u);
          assert PairsOfAmount(statements, b - b1, u) == PairsOfAmount(statements, b, u);
        }
      }
      assert a1 <= a && b1 <= b;
      FewerPerAmount(statements, gls, a - a1, b - b1);
    }
  }

  /**
   The greedy loop finds a maximum matching: per amount it matches as many lines as the scarcer side
   has, and no one-to-one, equal-amount assignment matches more statement lines.
   */
  lemma GreedyIsMaximum(statements: seq<BankLine>, gls: seq<BankLine>, other: Pairing)
    requires Assignment(statements, gls, other)
    ensures var out := Suggested(statements, gls, |statements|);
            && Assignment(statements, gls, PairsOf(out)) && |PairsOf(out)| == |out|
            && (forall v :: |PairsOfAmount(statements, PairsOf(out), v)| == Min(|OfAmount(statements, v)|, |OfAmount(gls, v)|))
            && |other| <= |out|
  {
    var out := Suggested(statements, gls, |statements|);
    GreedyIsMaximal(statements, gls, |statements|);
    assert Sound(statements, gls, out, |statements|);
    hide Assignment, Maximal, PairsOf, PairsOfAmount;
    forall v ensures |PairsOfAmount(statements, PairsOf(out), v)| == Min(|OfAmount(statements, v)|, |OfAmount(gls, v)|) {
      MaximalPerAmount(statements, gls, PairsOf(out), v);
    }
    forall v ensures |PairsOfAmount(statements, other, v)| <= |PairsOfAmount(statements, PairsOf(out), v)| {
      AmountBound(statements, gls, other, v);
    }
    FewerPerAmount(statements, gls, other, PairsOf(out));
  }
}
