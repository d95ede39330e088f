/** Cash and positions of the fake paper broker, and what a fill does to them. */
module PaperLedger {
  import opened Prelude
  import opened LiveModels

  datatype Position = Position(quantity: real, marketValue: real)

  datatype Ledger = Ledger(cash: real, positions: map<Symbol, Position>)

  datatype Fill = Fill(side: Side, symbol: Symbol, quantity: real, price: real)

  datatype Refusal = WouldShort | WouldUseMargin

  function Held(l: Ledger, symbol: Symbol): real {
    if symbol in l.positions then l.positions[symbol].quantity else 0.0
  }

  function Marked(l: Ledger, symbol: Symbol): real {
    if symbol in l.positions then l.positions[symbol].marketValue else 0.0
  }

  function NewQuantity(l: Ledger, f: Fill): real {
    if f.side == Buy then Held(l, f.symbol) + f.quantity else Held(l, f.symbol) - f.quantity
  }

  function ApplyFill(l: Ledger, f: Fill): Result<Ledger, Refusal> {
    var notional := Worth(f.quantity, f.price);
    var quantity := NewQuantity(l, f);
    if quantity < 0.0 then Err(WouldShort)
    else if f.side == Buy && notional > l.cash then Err(WouldUseMargin)
    else
      Ok(Ledger(
           if f.side == Buy then l.cash - notional else l.cash + notional,
           if quantity == 0.0 then l.positions - {f.symbol}
           else l.positions[f.symbol := Position(quantity, Worth(quantity, f.price))]))
  }

  // ---------------------------------------------------------------- equity

  ghost function TotalValue(positions: map<Symbol, Position>): real {
    if positions == map[] then 0.0
    else
      var s :| s in positions;
      positions[s].marketValue + TotalValue(positions - {s})
  }

  lemma {:induction false} TotalWithout(positions: map<Symbol, Position>, s: Symbol)
    requires s in positions
    ensures TotalValue(positions) == positions[s].marketValue + TotalValue(positions - {s})
    decreases |positions|
  {
    var t :| t in positions && TotalValue(positions) == positions[t].marketValue + TotalValue(positions - {t});
    if t != s {
      TotalWithout(positions - {t}, s);
      TotalWithout(positions - {s}, t);
      assert positions - {t} - {s} == positions - {s} - {t};
    }
  }

  lemma TotalWith(positions: map<Symbol, Position>, s: Symbol, p: Position)
    ensures TotalValue(positions[s := p]) == p.marketValue + TotalValue(positions - {s})
  {
    TotalWithout(positions[s := p], s);
    assert positions[s := p] - {s} == positions - {s};
  }

  ghost function Equity(l: Ledger): real { l.cash + TotalValue(l.positions) }

  lemma ZeroTimes(a: real, b: real)
    requires a == 0.0
    ensures a * b == 0.0
  {
  }

  // ---------------------------------------------------------------- what a fill does

  ghost predicate Nonnegative(l: Ledger) {
    l.cash >= 0.0 && forall s :: s in l.positions ==> l.positions[s].quantity >= 0.0
  }

  function CashEffect(f: Fill): real {
    if f.side == Buy then -Worth(f.quantity, f.price) else Worth(f.quantity, f.price)
  }

  function ShareEffect(f: Fill, symbol: Symbol): real {
    if f.symbol != symbol then 0.0 else if f.side == Buy then f.quantity else -f.quantity
  }

  /**
   An applied fill moves cash and one holding by its signed amounts, marks that holding at the fill
   price, touches nothing else, and changes equity by exactly the revaluation of the old holding.
   */
  lemma FillEffect(l: Ledger, f: Fill)
    requires ApplyFill(l, f).Ok?
    requires f.quantity >= 0.0 && f.price >= 0.0
    ensures var l' := ApplyFill(l, f).value;
            && l'.cash == l.cash + CashEffect(f)
            && (forall s :: Held(l', s) == Held(l, s) + ShareEffect(f, s))
            && Marked(l', f.symbol) == Worth(Held(l', f.symbol), f.price)
            && (forall s :: s != f.symbol ==> Marked(l', s) == Marked(l, s) && (s in l'.positions <==> s in l.positions))
            && Equity(l') - Equity(l) == Worth(Held(l, f.symbol), f.price) - Marked(l, f.symbol)
            && (Nonnegative(l) ==> Nonnegative(l'))
  {
    var l' := ApplyFill(l, f).value;
    var q := NewQuantity(l, f);
    NewMark(l, f);
    TotalAfter(l, l', f.symbol, q, Worth(q, f.price));
  }

  lemma NewMark(l: Ledger, f: Fill)
    ensures Worth(NewQuantity(l, f), f.price) == Worth(Held(l, f.symbol), f.price) - CashEffect(f)
    ensures NewQuantity(l, f) == 0.0 ==> Worth(NewQuantity(l, f), f.price) == 0.0
  {
    var h := Held(l, f.symbol);
    if f.side == Buy {
      assert (h + f.quantity) * f.price == h * f.price + f.quantity * f.price;
    } else {
      assert (h - f.quantity) * f.price == h * f.price - f.quantity * f.price;
    }
    if NewQuantity(l, f) == 0.0 {
      ZeroTimes(NewQuantity(l, f), f.price);
    }
  }

  /** Replacing one holding, or removing it at zero, replaces its contribution to the total value. */
  lemma TotalAfter(l: Ledger, l': Ledger, symbol: Symbol, quantity: real, value: real)
    requires l'.positions == if quantity == 0.0 then l.positions - {symbol} else l.positions[symbol := Position(quantity, value)]
    requires quantity == 0.0 ==> value == 0.0
    ensures TotalValue(l'.positions) - TotalValue(l.positions) == value - Marked(l, symbol)
  {
    if symbol in l.positions {
      TotalWithout(l.positions, symbol);
    } else {
      assert l.positions - {symbol} == l.positions;
    }
    if quantity != 0.0 {
      TotalWith(l.positions, symbol, Position(quantity, value));
    }
  }

  /** Exactly the fills that oversell or overspend are refused. */
  lemma RefusedExactlyWhen(l: Ledger, f: Fill)
    requires Nonnegative(l) && f.quantity >= 0.0 && f.price >= 0.0
    ensures ApplyFill(l, f).Err? <==>
              (f.side == Sell && f.quantity > Held(l, f.symbol)) || (f.side == Buy && Worth(f.quantity, f.price) > l.cash)
  {
  }

  // ---------------------------------------------------------------- sequences of fills

  function SumCash(fills: seq<Fill>): real {
    if fills == [] then 0.0 else SumCash(fills[..|fills| - 1]) + CashEffect(fills[|fills| - 1])
  }

  function SumShares(fills: seq<Fill>, symbol: Symbol): real {
    if fills == [] then 0.0 else SumShares(fills[..|fills| - 1], symbol) + ShareEffect(fills[|fills| - 1], symbol)
  }

  lemma SumsAppend(fills: seq<Fill>, f: Fill)
    ensures SumCash(fills + [f]) == SumCash(fills) + CashEffect(f)
    ensures forall s :: SumShares(fills + [f], s) == SumShares(fills, s) + ShareEffect(f, s)
  {
    assert (fills + [f])[..|fills|] == fills;
  }
}
