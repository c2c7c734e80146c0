/** Conversion at stored rates: MYR per currency unit, ten decimal places. */
module CurrencyModel {
  import opened Wrappers
  import opened Rounding
  import opened Ledger
  import opened ServiceModel

  const MYR: CurrencyId := 0
  // one MYR per unit
  const ONE: int := 10000000000

  /** MYR sen of `amount` hundredths of a currency unit. */
  function ToMyr(amount: int, rate: int): int {
    RoundDiv(amount * rate, ONE)
  }

  /** `myr_rate`: the ringgit itself converts one to one. */
  function RateOn(c: Chart, currency: CurrencyId, date: Date): Option<int> {
    if currency == MYR then Some(ONE) else c.rate(currency, date)
  }

  /** Realised or unrealised difference on an open amount booked at `booked`. */
  function FxDelta(open: int, booked: int, rate: int): int {
    ToMyr(open, rate) - booked
  }

  lemma CompanyCurrencyIsExact(amount: int)
    ensures ToMyr(amount, ONE) == amount
  {
    RoundIsIdentity(amount, ONE);
  }

  // ─── Converting a sum piece by piece ────────────────────────────────

  function Sum(xs: seq<int>): int {
    if xs == [] then 0 else Sum(xs[..|xs| - 1]) + xs[|xs| - 1]
  }

  /** Σ of the converted pieces. */
  function SumMyr(xs: seq<int>, rate: int): int {
    if xs == [] then 0 else SumMyr(xs[..|xs| - 1], rate) + ToMyr(xs[|xs| - 1], rate)
  }

  lemma {:induction false} SumsOfPieces(a: seq<int>, b: seq<int>, rate: int)
    ensures Sum(a + b) == Sum(a) + Sum(b)
    ensures SumMyr(a + b, rate) == SumMyr(a, rate) + SumMyr(b, rate)
  {
    if b == [] {
      assert a + b == a;
    } else {
      assert (a + b)[..|a + b| - 1] == a + b[..|b| - 1];
      SumsOfPieces(a, b[..|b| - 1], rate);
    }
  }

  lemma {:induction false} PiecesInCompanyCurrency(xs: seq<int>)
    ensures SumMyr(xs, ONE) == Sum(xs)
  {
    if xs != [] {
      PiecesInCompanyCurrency(xs[..|xs| - 1]);
      CompanyCurrencyIsExact(xs[|xs| - 1]);
    }
  }

  /** Each converted piece is at most half a sen off, so k pieces are at most k/2 sen off. */
  lemma {:induction false} PiecesDrift(xs: seq<int>, rate: int)
    ensures -|xs| * ONE <= 2 * (ONE * SumMyr(xs, rate) - Sum(xs) * rate) <= |xs| * ONE
  {
    if xs != [] {
      var rest, x := xs[..|xs| - 1], xs[|xs| - 1];
      PiecesDrift(rest, rate);
      RoundIsNearest(x * rate, ONE);
      assert (Sum(rest) + x) * rate == Sum(rest) * rate + x * rate;
    }
  }

  /** Converting k pieces against converting their sum once: at most (k+1)/2 sen apart. */
  lemma PiecesAgainstWhole(xs: seq<int>, rate: int)
    ensures 2 * Abs(SumMyr(xs, rate) - ToMyr(Sum(xs), rate)) <= |xs| + 1
    ensures |xs| == 1 ==> SumMyr(xs, rate) == ToMyr(Sum(xs), rate)
  {
    PiecesDrift(xs, rate);
    RoundIsNearest(Sum(xs) * rate, ONE);
    if |xs| == 1 {
      assert xs[..0] == [];
    }
  }

  /** The two lines that square the control account for a realised difference. */
  function RealizedFxLines(accounts: GainLoss, counterpart: AccountId, delta: int): seq<Line> {
    if delta < 0 then [Debit(accounts.loss, Abs(delta)), Credit(counterpart, Abs(delta))]
    else [Debit(counterpart, Abs(delta)), Credit(accounts.gain, Abs(delta))]
  }

  function RealizedFxMove(accounts: GainLoss, counterpart: AccountId, partner: Option<PartnerId>, delta: int, date: Date): NewMove {
    NewMove("GEN", date, Entry, partner, FromSen(RealizedFxLines(accounts, counterpart, delta)))
  }

  function PostRealizedFx(c: Chart, s: State, counterpart: AccountId, partner: Option<PartnerId>, delta: int, date: Date)
    : Reply<Option<MoveId>>
  {
    if delta == 0 then Reply(s, Ok(None))
    else if c.realizedFx.None? then Reply(s, Err(NoFxAccounts))
    else
      var r := CreateAndPost(c, s, RealizedFxMove(c.realizedFx.value, counterpart, partner, delta, date));
      Reply(r.db, if r.result.Ok? then Ok(Some(r.result.value)) else Err(r.result.error))
  }

  /** The entry balances: the control account moves by the difference, a gain is credited, a loss debited. */
  lemma RealizedFxIsBalanced(accounts: GainLoss, counterpart: AccountId, delta: int)
    requires delta != 0
    ensures var lines := RealizedFxLines(accounts, counterpart, delta);
            Balanced(lines) && FreshLines(lines) && SumDebit(lines) == Abs(delta)
    ensures counterpart != accounts.gain && counterpart != accounts.loss ==>
              Net(RealizedFxLines(accounts, counterpart, delta), {counterpart}) == delta &&
              Net(RealizedFxLines(accounts, counterpart, delta), {if delta > 0 then accounts.gain else accounts.loss}) == -delta
  {
    var lines := RealizedFxLines(accounts, counterpart, delta);
    SumsOfTwo(lines[0], lines[1], {counterpart});
    SumsOfTwo(lines[0], lines[1], {if delta > 0 then accounts.gain else accounts.loss});
    assert lines == [lines[0], lines[1]];
  }
}
