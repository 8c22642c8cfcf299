/**
 * The portfolio ledger (src/Portfolio/Portfolio.js).
 *
 * A portfolio holds cash and a list of positions, at most one per symbol. An order is
 * validated, priced at the market data's current price of its symbol, and then either
 * executed in full or rejected with no change at all.
 *
 * The first half of this module states the ledger on values (an Account and the
 * function ApplyOrder) and proves its invariants; the class Portfolio at the end is the
 * object the source mutates, and its methods are proved against those functions.
 */
module Ledger {
  import opened Wrappers
  import opened Securities
  import Market

  // ---------------------------------------------------------------------------
  // Orders
  // ---------------------------------------------------------------------------

  /** The fields of an order request the source reads; a missing field is None. */
  datatype OrderOptions = OrderOptions(symbol: Option<string>, qty: Option<int>, side: Option<string>)

  datatype Side = Buy | Sell

  /** A validated order. */
  datatype Order = Order(symbol: string, qty: int, side: Side)

  /** Errors the source throws. UnknownSymbol stands for the failed price lookup. */
  datatype OrderError = NoSymbol | BadQuantity | BadSide | UnknownSymbol

  /** Orders the source declines with a console warning. */
  datatype Warning = InsufficientPosition | InsufficientCash

  datatype OrderOutcome = Executed | Warned(warning: Warning) | Failed(error: OrderError)

  /** A symbol is supplied when it is present and not the empty string (JavaScript truthiness). */
  predicate SymbolGiven(o: OrderOptions)
  {
    o.symbol.Some? && o.symbol.value != ""
  }

  /** A quantity is acceptable when it is present and at least 1 (a falsy 0 is below 1). */
  predicate QtyGiven(o: OrderOptions)
  {
    o.qty.Some? && o.qty.value >= 1
  }

  predicate SideGiven(o: OrderOptions)
  {
    o.side.Some? && (o.side.value == "buy" || o.side.value == "sell")
  }

  /**
   * The three checks of createOrder, in the source's order: the symbol, then the
   * quantity, then the side. The first that fails names the error.
   */
  function Validate(o: OrderOptions): (r: Result<Order, OrderError>)
    ensures r.Ok? <==> SymbolGiven(o) && QtyGiven(o) && SideGiven(o)
    ensures r.Ok? ==> r.value.symbol == o.symbol.value && r.value.qty == o.qty.value >= 1
    ensures r.Ok? ==> (r.value.side == Buy <==> o.side.value == "buy")
    ensures r.Err? ==> r.error == (if !SymbolGiven(o) then NoSymbol else if !QtyGiven(o) then BadQuantity else BadSide)
  {
    if o.symbol.None? || o.symbol.value == "" then Err(NoSymbol)
    else if o.qty.None? || o.qty.value < 1 then Err(BadQuantity)
    else if o.side.None? || (o.side.value != "sell" && o.side.value != "buy") then Err(BadSide)
    else Ok(Order(o.symbol.value, o.qty.value, if o.side.value == "sell" then Sell else Buy))
  }

  // ---------------------------------------------------------------------------
  // Position lists
  // ---------------------------------------------------------------------------

  /** The index of the first position for `symbol` (lodash `_.find`). */
  function IndexOf(ps: seq<Position>, symbol: string): (r: Option<nat>)
    ensures r.Some? ==> r.value < |ps| && ps[r.value].symbol == symbol
    ensures r.Some? ==> forall j :: 0 <= j < r.value ==> ps[j].symbol != symbol
    ensures r.None? <==> forall j :: 0 <= j < |ps| ==> ps[j].symbol != symbol
  {
    if |ps| == 0 then None
    else if ps[0].symbol == symbol then Some(0)
    else match IndexOf(ps[1..], symbol)
      case None => None
      case Some(i) => Some(i + 1)
  }

  /** The quantity held of `symbol`, 0 when there is no position for it. */
  function QuantityOf(ps: seq<Position>, symbol: string): int
  {
    if |ps| == 0 then 0
    else if ps[0].symbol == symbol then ps[0].quantity
    else QuantityOf(ps[1..], symbol)
  }

  predicate UniqueSymbols(ps: seq<Position>)
  {
    forall i, j :: 0 <= i < j < |ps| ==> ps[i].symbol != ps[j].symbol
  }

  predicate NonNegative(ps: seq<Position>)
  {
    forall i :: 0 <= i < |ps| ==> ps[i].quantity >= 0
  }

  /** Every position held is open: its quantity is at least 1. */
  predicate AllOpen(ps: seq<Position>)
  {
    forall i :: 0 <= i < |ps| ==> ps[i].quantity >= 1
  }

  /** `_.remove(positions, quantity == 0)`: drops every position whose quantity is 0. */
  function RemoveClosed(ps: seq<Position>): seq<Position>
  {
    if |ps| == 0 then []
    else if ps[0].quantity == 0 then RemoveClosed(ps[1..])
    else [ps[0]] + RemoveClosed(ps[1..])
  }

  /** The existing position for `symbol`, or a new quantity-0 one appended at the end. */
  function FindOrCreate(ps: seq<Position>, symbol: string): (r: (seq<Position>, nat))
    ensures r.1 < |r.0| && r.0[r.1].symbol == symbol
  {
    match IndexOf(ps, symbol)
    case Some(i) => (ps, i)
    case None => (ps + [NewPosition(symbol)], |ps|)
  }

  /** The sum of quantity times price over the positions (lodash `_.sumBy`). */
  function Holdings(ps: seq<Position>, prices: map<string, int>): int
    requires forall i :: 0 <= i < |ps| ==> ps[i].symbol in prices
  {
    if |ps| == 0 then 0
    else ps[0].quantity * prices[ps[0].symbol] + Holdings(ps[1..], prices)
  }

  lemma {:induction false} QuantityAtIndex(ps: seq<Position>, symbol: string)
    ensures IndexOf(ps, symbol).Some? ==> QuantityOf(ps, symbol) == ps[IndexOf(ps, symbol).value].quantity
    ensures IndexOf(ps, symbol).None? ==> QuantityOf(ps, symbol) == 0
  {
    if |ps| > 0 && ps[0].symbol != symbol {
      QuantityAtIndex(ps[1..], symbol);
    }
  }

  /** In a list of open positions, a symbol has a position exactly when some of it is held. */
  lemma HeldIffPositive(ps: seq<Position>, symbol: string)
    requires AllOpen(ps)
    ensures IndexOf(ps, symbol).Some? <==> QuantityOf(ps, symbol) >= 1
  {
    QuantityAtIndex(ps, symbol);
  }

  /** Setting the quantity at one index changes the quantity of that symbol only. */
  lemma {:induction false} QuantityAfterUpdate(ps: seq<Position>, i: nat, q: int, x: string)
    requires i < |ps| && UniqueSymbols(ps)
    ensures QuantityOf(ps[i := ps[i].(quantity := q)], x) ==
      if x == ps[i].symbol then q else QuantityOf(ps, x)
  {
    var ps' := ps[i := ps[i].(quantity := q)];
    if i == 0 {
      assert ps'[1..] == ps[1..];
    } else {
      assert ps'[1..] == ps[1..][i - 1 := ps[i].(quantity := q)];
      assert ps[1..][i - 1] == ps[i];
      QuantityAfterUpdate(ps[1..], i - 1, q, x);
    }
  }

  /** A symbol absent from the list has quantity 0. */
  lemma {:induction false} QuantityAbsent(ps: seq<Position>, x: string)
    requires forall j :: 0 <= j < |ps| ==> ps[j].symbol != x
    ensures QuantityOf(ps, x) == 0
  {
    if |ps| > 0 {
      QuantityAbsent(ps[1..], x);
    }
  }

  lemma {:induction false} QuantityAfterAppend(ps: seq<Position>, p: Position, x: string)
    requires forall j :: 0 <= j < |ps| ==> ps[j].symbol != p.symbol
    ensures QuantityOf(ps + [p], x) == if x == p.symbol then p.quantity else QuantityOf(ps, x)
  {
    if |ps| == 0 {
      assert (ps + [p])[1..] == [];
    } else {
      assert (ps + [p])[1..] == ps[1..] + [p];
      QuantityAfterAppend(ps[1..], p, x);
    }
  }

  /**
   * Finding or creating a position changes no quantity held; the position it yields holds
   * what was held of the symbol, so a created one has the default quantity 0.
   */
  lemma FindOrCreateKeepsQuantities(ps: seq<Position>, symbol: string, x: string)
    ensures QuantityOf(FindOrCreate(ps, symbol).0, x) == QuantityOf(ps, x)
    ensures FindOrCreate(ps, symbol).0[FindOrCreate(ps, symbol).1].quantity == QuantityOf(ps, symbol)
  {
    QuantityAtIndex(ps, symbol);
    if IndexOf(ps, symbol).None? {
      QuantityAfterAppend(ps, NewPosition(symbol), x);
    }
  }

  /** Removing closed positions keeps only open positions of the original list. */
  lemma {:induction false} RemoveClosedMembers(ps: seq<Position>)
    ensures forall j :: 0 <= j < |RemoveClosed(ps)| ==> RemoveClosed(ps)[j] in ps && RemoveClosed(ps)[j].quantity != 0
  {
    if |ps| > 0 {
      RemoveClosedMembers(ps[1..]);
      var rest := RemoveClosed(ps[1..]);
      forall j | 0 <= j < |rest|
        ensures rest[j] in ps
      {
        assert rest[j] in ps[1..];
      }
    }
  }

  /** Removing closed positions keeps every symbol's quantity and the symbols' uniqueness. */
  lemma {:induction false} RemoveClosedKeeps(ps: seq<Position>, x: string)
    requires UniqueSymbols(ps)
    ensures QuantityOf(RemoveClosed(ps), x) == QuantityOf(ps, x)
    ensures UniqueSymbols(RemoveClosed(ps))
    ensures forall j :: 0 <= j < |RemoveClosed(ps)| ==> RemoveClosed(ps)[j] in ps && RemoveClosed(ps)[j].quantity != 0
  {
    RemoveClosedMembers(ps);
    if |ps| > 0 {
      RemoveClosedKeeps(ps[1..], x);
      if ps[0].symbol == x {
        QuantityAbsent(ps[1..], x);
        QuantityAbsent(RemoveClosed(ps[1..]), x);
      }
      var rest := RemoveClosed(ps[1..]);
      if ps[0].quantity != 0 {
        assert RemoveClosed(ps) == [ps[0]] + rest;
        forall j | 0 <= j < |rest|
          ensures rest[j].symbol != ps[0].symbol
        {
          var k :| 0 <= k < |ps[1..]| && ps[1..][k] == rest[j];
          assert ps[k + 1] == rest[j];
        }
      }
    }
  }

  /**
   * When the position at index `i` is the only one with quantity 0, removing closed
   * positions removes exactly that one.
   */
  lemma {:induction false} RemoveOnlyClosed(ps: seq<Position>, i: nat)
    requires i < |ps| && ps[i].quantity == 0
    requires forall j :: 0 <= j < |ps| && j != i ==> ps[j].quantity != 0
    ensures RemoveClosed(ps) == ps[..i] + ps[i + 1..]
  {
    if i == 0 {
      NoneClosed(ps[1..]);
    } else {
      RemoveOnlyClosed(ps[1..], i - 1);
      assert ps[1..][..i - 1] + ps[1..][i..] == ps[1..i] + ps[i + 1..];
      assert ps[..i] == [ps[0]] + ps[1..i];
    }
  }

  lemma {:induction false} NoneClosed(ps: seq<Position>)
    requires forall j :: 0 <= j < |ps| ==> ps[j].quantity != 0
    ensures RemoveClosed(ps) == ps
  {
    if |ps| > 0 {
      NoneClosed(ps[1..]);
    }
  }

  lemma {:induction false} HoldingsAfterUpdate(ps: seq<Position>, i: nat, q: int, prices: map<string, int>)
    requires i < |ps| && forall j :: 0 <= j < |ps| ==> ps[j].symbol in prices
    ensures Holdings(ps[i := ps[i].(quantity := q)], prices) ==
      Holdings(ps, prices) + (q - ps[i].quantity) * prices[ps[i].symbol]
  {
    var ps' := ps[i := ps[i].(quantity := q)];
    if i == 0 {
      assert ps'[1..] == ps[1..];
      assert ps'[0].quantity * prices[ps[0].symbol] - ps[0].quantity * prices[ps[0].symbol]
        == (q - ps[0].quantity) * prices[ps[0].symbol];
    } else {
      assert ps'[1..] == ps[1..][i - 1 := ps[i].(quantity := q)];
      assert ps[1..][i - 1] == ps[i];
      HoldingsAfterUpdate(ps[1..], i - 1, q, prices);
    }
  }

  lemma {:induction false} HoldingsAfterAppend(ps: seq<Position>, p: Position, prices: map<string, int>)
    requires forall j :: 0 <= j < |ps| ==> ps[j].symbol in prices
    requires p.symbol in prices
    ensures Holdings(ps + [p], prices) == Holdings(ps, prices) + p.quantity * prices[p.symbol]
  {
    if |ps| == 0 {
      assert (ps + [p])[1..] == [];
    } else {
      assert (ps + [p])[1..] == ps[1..] + [p];
      HoldingsAfterAppend(ps[1..], p, prices);
    }
  }

  lemma {:induction false} HoldingsRemoveClosed(ps: seq<Position>, prices: map<string, int>)
    requires forall j :: 0 <= j < |ps| ==> ps[j].symbol in prices
    ensures forall j :: 0 <= j < |RemoveClosed(ps)| ==> RemoveClosed(ps)[j].symbol in prices
    ensures Holdings(RemoveClosed(ps), prices) == Holdings(ps, prices)
  {
    if |ps| > 0 {
      HoldingsRemoveClosed(ps[1..], prices);
    }
  }

  // ---------------------------------------------------------------------------
  // Executing orders
  // ---------------------------------------------------------------------------

  /** The part of a portfolio an order changes. */
  datatype Account = Account(cash: int, positions: seq<Position>)

  /**
   * A validated order at `price`. A sell needs a position holding at least `qty`: cash
   * grows by qty * price, the position shrinks by qty and, if it reaches 0, closed
   * positions are removed. A buy needs cash of at least qty * price: cash shrinks by
   * that amount and the found or created position grows by qty. Otherwise the order
   * is declined with a warning and nothing changes.
   */
  function Execute(a: Account, order: Order, price: int): (r: (OrderOutcome, Account))
    ensures r.0 == Executed || r.1 == a
    ensures r.0 != Executed ==> r.0.Warned?
  {
    match order.side
    case Sell => ExecuteSell(a, order.symbol, order.qty, price)
    case Buy => ExecuteBuy(a, order.symbol, order.qty, price)
  }

  /**
   * The positions after taking `qty` from the one at `i`: when it reaches 0, every closed
   * position is removed (lodash `_.remove` with a zero-quantity test).
   */
  function Shrink(ps: seq<Position>, i: nat, qty: int): seq<Position>
    requires i < |ps|
  {
    var updated := ps[i := ps[i].(quantity := ps[i].quantity - qty)];
    if updated[i].quantity == 0 then RemoveClosed(updated) else updated
  }

  function ExecuteSell(a: Account, symbol: string, qty: int, price: int): (OrderOutcome, Account)
  {
    var found := IndexOf(a.positions, symbol);
    if found.Some? && a.positions[found.value].quantity >= qty then
      (Executed, Account(a.cash + qty * price, Shrink(a.positions, found.value, qty)))
    else
      (Warned(InsufficientPosition), a)
  }

  function ExecuteBuy(a: Account, symbol: string, qty: int, price: int): (OrderOutcome, Account)
  {
    if a.cash < qty * price then
      (Warned(InsufficientCash), a)
    else
      var (ps, i) := FindOrCreate(a.positions, symbol);
      (Executed, Account(a.cash - qty * price, ps[i := ps[i].(quantity := ps[i].quantity + qty)]))
  }

  /**
   * createOrder on values: validation first (an error changes nothing), then the price
   * lookup (an unregistered symbol changes nothing), then Execute.
   */
  function ApplyOrder(a: Account, o: OrderOptions, prices: map<string, int>): (r: (OrderOutcome, Account))
    ensures r.0 == Executed || r.1 == a
    ensures r.0.Failed? <==> !(SymbolGiven(o) && QtyGiven(o) && SideGiven(o)) || o.symbol.value !in prices
  {
    match Validate(o)
    case Err(e) => (Failed(e), a)
    case Ok(order) =>
      if order.symbol !in prices then (Failed(UnknownSymbol), a)
      else Execute(a, order, prices[order.symbol])
  }

  /**
   * An order executes exactly when it can be covered: a sell when the quantity held is
   * at least qty, a buy when cash is at least qty * price.
   */
  lemma ExecutedWhen(a: Account, order: Order, price: int)
    requires order.qty >= 1
    ensures Execute(a, order, price).0 == Executed <==>
      match order.side
      case Sell => QuantityOf(a.positions, order.symbol) >= order.qty
      case Buy => a.cash >= order.qty * price
  {
    QuantityAtIndex(a.positions, order.symbol);
  }

  /**
   * An executed order moves cash and the ordered symbol's quantity by exactly qty * price
   * and qty, in opposite directions, and leaves every other symbol's quantity alone.
   */
  lemma ExecutedAmounts(a: Account, order: Order, price: int, x: string)
    requires UniqueSymbols(a.positions)
    requires Execute(a, order, price).0 == Executed
    ensures var a' := Execute(a, order, price).1;
      && a'.cash == (if order.side == Sell then a.cash + order.qty * price else a.cash - order.qty * price)
      && QuantityOf(a'.positions, x) ==
           if x != order.symbol then QuantityOf(a.positions, x)
           else if order.side == Sell then QuantityOf(a.positions, x) - order.qty
           else QuantityOf(a.positions, x) + order.qty
  {
    match order.side
    case Sell => SoldAmounts(a, order.symbol, order.qty, price, x);
    case Buy => BoughtAmounts(a, order.symbol, order.qty, price, x);
  }

  lemma SoldAmounts(a: Account, symbol: string, qty: int, price: int, x: string)
    requires UniqueSymbols(a.positions)
    requires ExecuteSell(a, symbol, qty, price).0 == Executed
    ensures ExecuteSell(a, symbol, qty, price).1.cash == a.cash + qty * price
    ensures QuantityOf(ExecuteSell(a, symbol, qty, price).1.positions, x) ==
      if x != symbol then QuantityOf(a.positions, x) else QuantityOf(a.positions, x) - qty
  {
    SellExecuted(a, symbol, qty, price);
    QuantityAtIndex(a.positions, symbol);
    ShrinkQuantities(a.positions, IndexOf(a.positions, symbol).value, qty, x);
  }

  /**
   * Taking `qty` from the position at `i`, then removing closed positions if it reached 0,
   * lowers that symbol's quantity by `qty` and no other symbol's.
   */
  lemma ShrinkQuantities(ps: seq<Position>, i: nat, qty: int, x: string)
    requires UniqueSymbols(ps) && i < |ps|
    ensures QuantityOf(Shrink(ps, i, qty), x) ==
      if x == ps[i].symbol then ps[i].quantity - qty else QuantityOf(ps, x)
  {
    var q := ps[i].quantity - qty;
    QuantityAfterUpdate(ps, i, q, x);
    if q == 0 {
      UniqueAfterUpdate(ps, i, q);
      RemoveClosedKeeps(ps[i := ps[i].(quantity := q)], x);
    }
  }

  lemma BoughtAmounts(a: Account, symbol: string, qty: int, price: int, x: string)
    requires UniqueSymbols(a.positions)
    requires ExecuteBuy(a, symbol, qty, price).0 == Executed
    ensures ExecuteBuy(a, symbol, qty, price).1.cash == a.cash - qty * price
    ensures QuantityOf(ExecuteBuy(a, symbol, qty, price).1.positions, x) ==
      if x != symbol then QuantityOf(a.positions, x) else QuantityOf(a.positions, x) + qty
  {
    var ps := a.positions;
    QuantityAtIndex(ps, symbol);
    var (ps1, i) := FindOrCreate(ps, symbol);
    FindOrCreateKeepsQuantities(ps, symbol, x);
    if IndexOf(ps, symbol).None? {
      UniqueAfterAppend(ps, NewPosition(symbol));
    }
    QuantityAfterUpdate(ps1, i, ps1[i].quantity + qty, x);
  }

  lemma UniqueAfterUpdate(ps: seq<Position>, i: nat, q: int)
    requires i < |ps| && UniqueSymbols(ps)
    ensures UniqueSymbols(ps[i := ps[i].(quantity := q)])
  {
    var ps' := ps[i := ps[i].(quantity := q)];
    assert forall j :: 0 <= j < |ps| ==> ps'[j].symbol == ps[j].symbol;
  }

  lemma UniqueAfterAppend(ps: seq<Position>, p: Position)
    requires UniqueSymbols(ps)
    requires forall j :: 0 <= j < |ps| ==> ps[j].symbol != p.symbol
    ensures UniqueSymbols(ps + [p])
  {
  }

  /**
   * Executing keeps the positions' symbols unique and their quantities non-negative;
   * when every position was open before, every position is open after.
   */
  lemma ExecuteKeepsBooks(a: Account, order: Order, price: int)
    requires order.qty >= 1
    requires UniqueSymbols(a.positions) && NonNegative(a.positions)
    ensures UniqueSymbols(Execute(a, order, price).1.positions)
    ensures NonNegative(Execute(a, order, price).1.positions)
    ensures AllOpen(a.positions) ==> AllOpen(Execute(a, order, price).1.positions)
  {
    match order.side
    case Sell => SellKeepsBooks(a, order.symbol, order.qty, price);
    case Buy => BuyKeepsBooks(a, order.symbol, order.qty, price);
  }

  lemma SellKeepsBooks(a: Account, symbol: string, qty: int, price: int)
    requires qty >= 1
    requires UniqueSymbols(a.positions) && NonNegative(a.positions)
    ensures UniqueSymbols(ExecuteSell(a, symbol, qty, price).1.positions)
    ensures NonNegative(ExecuteSell(a, symbol, qty, price).1.positions)
    ensures AllOpen(a.positions) ==> AllOpen(ExecuteSell(a, symbol, qty, price).1.positions)
  {
    var ps := a.positions;
    var found := IndexOf(ps, symbol);
    if found.Some? && ps[found.value].quantity >= qty {
      var i := found.value;
      var q := ps[i].quantity - qty;
      var ps1 := ps[i := ps[i].(quantity := q)];
      UniqueAfterUpdate(ps, i, q);
      assert NonNegative(ps1);
      if q == 0 {
        RemoveClosedKeeps(ps1, symbol);
        assert ExecuteSell(a, symbol, qty, price).1.positions == RemoveClosed(ps1);
        if AllOpen(ps) {
          RemoveOnlyClosed(ps1, i);
        }
      } else {
        assert ExecuteSell(a, symbol, qty, price).1.positions == ps1;
      }
    }
  }

  lemma BuyKeepsBooks(a: Account, symbol: string, qty: int, price: int)
    requires qty >= 1
    requires UniqueSymbols(a.positions) && NonNegative(a.positions)
    ensures UniqueSymbols(ExecuteBuy(a, symbol, qty, price).1.positions)
    ensures NonNegative(ExecuteBuy(a, symbol, qty, price).1.positions)
    ensures AllOpen(a.positions) ==> AllOpen(ExecuteBuy(a, symbol, qty, price).1.positions)
  {
    var ps := a.positions;
    if a.cash >= qty * price {
      var (ps1, i) := FindOrCreate(ps, symbol);
      if IndexOf(ps, symbol).None? {
        UniqueAfterAppend(ps, NewPosition(symbol));
      }
      assert UniqueSymbols(ps1) && NonNegative(ps1);
      UniqueAfterUpdate(ps1, i, ps1[i].quantity + qty);
      assert ExecuteBuy(a, symbol, qty, price).1.positions == ps1[i := ps1[i].(quantity := ps1[i].quantity + qty)];
    }
  }

  /**
   * Cash never goes negative: a buy is declined unless cash covers it, and a sell at a
   * non-negative price only adds cash.
   */
  lemma ExecuteKeepsCash(a: Account, order: Order, price: int)
    requires order.qty >= 1
    requires a.cash >= 0 && price >= 0
    ensures Execute(a, order, price).1.cash >= 0
  {
  }

  /**
   * An executed order does not change the account's value at the current prices: the
   * cash paid or received equals the value of the quantity bought or sold.
   */
  lemma ExecuteKeepsValue(a: Account, order: Order, prices: map<string, int>)
    requires order.symbol in prices
    requires forall j :: 0 <= j < |a.positions| ==> a.positions[j].symbol in prices
    ensures var a' := Execute(a, order, prices[order.symbol]).1;
      && (forall j :: 0 <= j < |a'.positions| ==> a'.positions[j].symbol in prices)
      && a'.cash + Holdings(a'.positions, prices) == a.cash + Holdings(a.positions, prices)
  {
    match order.side
    case Sell => SellKeepsValue(a, order.symbol, order.qty, prices);
    case Buy => BuyKeepsValue(a, order.symbol, order.qty, prices);
  }

  lemma SellKeepsValue(a: Account, symbol: string, qty: int, prices: map<string, int>)
    requires symbol in prices
    requires forall j :: 0 <= j < |a.positions| ==> a.positions[j].symbol in prices
    ensures var a' := ExecuteSell(a, symbol, qty, prices[symbol]).1;
      && (forall j :: 0 <= j < |a'.positions| ==> a'.positions[j].symbol in prices)
      && a'.cash + Holdings(a'.positions, prices) == a.cash + Holdings(a.positions, prices)
  {
    var ps := a.positions;
    var found := IndexOf(ps, symbol);
    if found.Some? && ps[found.value].quantity >= qty {
      var i := found.value;
      var q := ps[i].quantity - qty;
      var ps1 := ps[i := ps[i].(quantity := q)];
      HoldingsAfterUpdate(ps, i, q, prices);
      assert forall j :: 0 <= j < |ps1| ==> ps1[j].symbol in prices;
      assert (q - ps[i].quantity) * prices[symbol] == -(qty * prices[symbol]);
      if q == 0 {
        HoldingsRemoveClosed(ps1, prices);
      }
    }
  }

  lemma BuyKeepsValue(a: Account, symbol: string, qty: int, prices: map<string, int>)
    requires symbol in prices
    requires forall j :: 0 <= j < |a.positions| ==> a.positions[j].symbol in prices
    ensures var a' := ExecuteBuy(a, symbol, qty, prices[symbol]).1;
      && (forall j :: 0 <= j < |a'.positions| ==> a'.positions[j].symbol in prices)
      && a'.cash + Holdings(a'.positions, prices) == a.cash + Holdings(a.positions, prices)
  {
    var ps := a.positions;
    if a.cash >= qty * prices[symbol] {
      var (ps1, i) := FindOrCreate(ps, symbol);
      if IndexOf(ps, symbol).None? {
        HoldingsAfterAppend(ps, NewPosition(symbol), prices);
      }
      assert Holdings(ps1, prices) == Holdings(ps, prices);
      assert forall j :: 0 <= j < |ps1| ==> ps1[j].symbol in prices;
      HoldingsAfterUpdate(ps1, i, ps1[i].quantity + qty, prices);
      assert (ps1[i].quantity + qty - ps1[i].quantity) * prices[symbol] == qty * prices[symbol];
    }
  }

  /**
   * An executed sell removes the symbol's position exactly when the whole quantity held
   * is sold, whether or not the ledger held other closed positions.
   */
  lemma SellClosesIffEmptied(a: Account, symbol: string, qty: int, price: int)
    requires UniqueSymbols(a.positions)
    requires ExecuteSell(a, symbol, qty, price).0 == Executed
    ensures IndexOf(ExecuteSell(a, symbol, qty, price).1.positions, symbol).None? <==>
      QuantityOf(a.positions, symbol) == qty
  {
    SellExecuted(a, symbol, qty, price);
    QuantityAtIndex(a.positions, symbol);
    ShrinkClosesIffEmptied(a.positions, IndexOf(a.positions, symbol).value, qty);
  }

  /** An executed sell found the symbol's position and shrank it, removing closed positions at 0. */
  lemma SellExecuted(a: Account, symbol: string, qty: int, price: int)
    requires ExecuteSell(a, symbol, qty, price).0 == Executed
    ensures IndexOf(a.positions, symbol).Some?
    ensures ExecuteSell(a, symbol, qty, price).1 ==
      Account(a.cash + qty * price, Shrink(a.positions, IndexOf(a.positions, symbol).value, qty))
  {
  }

  /**
   * Taking `qty` from the position at `i`, then removing closed positions if it reached 0,
   * leaves no position for its symbol exactly when it held `qty`.
   */
  lemma ShrinkClosesIffEmptied(ps: seq<Position>, i: nat, qty: int)
    requires UniqueSymbols(ps) && i < |ps|
    ensures IndexOf(Shrink(ps, i, qty), ps[i].symbol).None? <==> ps[i].quantity == qty
  {
    var updated := ps[i := ps[i].(quantity := ps[i].quantity - qty)];
    if updated[i].quantity == 0 {
      UniqueAfterUpdate(ps, i, ps[i].quantity - qty);
      ClosedSymbolDropped(updated, i);
    } else {
      assert updated[i].symbol == ps[i].symbol;
    }
  }

  /** Removing closed positions drops the symbol of a closed position entirely. */
  lemma ClosedSymbolDropped(ps: seq<Position>, i: nat)
    requires UniqueSymbols(ps) && i < |ps| && ps[i].quantity == 0
    ensures forall j :: 0 <= j < |RemoveClosed(ps)| ==> RemoveClosed(ps)[j].symbol != ps[i].symbol
  {
    RemoveClosedMembers(ps);
    forall j | 0 <= j < |RemoveClosed(ps)|
      ensures RemoveClosed(ps)[j].symbol != ps[i].symbol
    {
      var k :| 0 <= k < |ps| && ps[k] == RemoveClosed(ps)[j];
    }
  }

  /** ApplyOrder keeps the ledger's invariants and, at non-negative prices, cash >= 0. */
  lemma ApplyOrderKeepsBooks(a: Account, o: OrderOptions, prices: map<string, int>)
    requires UniqueSymbols(a.positions) && NonNegative(a.positions)
    ensures UniqueSymbols(ApplyOrder(a, o, prices).1.positions)
    ensures NonNegative(ApplyOrder(a, o, prices).1.positions)
    ensures AllOpen(a.positions) ==> AllOpen(ApplyOrder(a, o, prices).1.positions)
    ensures a.cash >= 0 && (forall k :: k in prices ==> prices[k] >= 0) ==> ApplyOrder(a, o, prices).1.cash >= 0
  {
    var v := Validate(o);
    if v.Ok? && v.value.symbol in prices {
      ExecuteKeepsBooks(a, v.value, prices[v.value.symbol]);
      if a.cash >= 0 && prices[v.value.symbol] >= 0 {
        ExecuteKeepsCash(a, v.value, prices[v.value.symbol]);
      }
    }
  }

  /**
   * Worked examples: 100000 cents of cash buying 10 at 50 leaves 99500 and a position of
   * 10; at a later price of 60 the account is worth 100100; selling 5 of a symbol not
   * held is declined and changes nothing.
   */
  lemma OrderExamples()
    ensures ApplyOrder(Account(100000, []), OrderOptions(Some("AAPL"), Some(10), Some("buy")), map["AAPL" := 50])
      == (Executed, Account(99500, [Position("AAPL", 10)]))
    ensures 99500 + Holdings([Position("AAPL", 10)], map["AAPL" := 60]) == 100100
    ensures ApplyOrder(Account(100000, []), OrderOptions(Some("AAPL"), Some(5), Some("sell")), map["AAPL" := 50])
      == (Warned(InsufficientPosition), Account(100000, []))
    ensures ApplyOrder(Account(100000, []), OrderOptions(Some("AAPL"), Some(0), Some("sell")), map["AAPL" := 50])
      == (Failed(BadQuantity), Account(100000, []))
  {
    var ps := [Position("AAPL", 10)];
    assert ps[1..] == [];
    assert Validate(OrderOptions(Some("AAPL"), Some(10), Some("buy"))) == Ok(Order("AAPL", 10, Buy));
    var empty: seq<Position> := [];
    assert IndexOf(empty, "AAPL") == None;
    assert empty + [NewPosition("AAPL")] == [Position("AAPL", 0)];
    assert FindOrCreate(empty, "AAPL") == ([Position("AAPL", 0)], 0);
    assert [Position("AAPL", 0)][0 := Position("AAPL", 0 + 10)] == ps;
    assert ExecuteBuy(Account(100000, empty), "AAPL", 10, 50) == (Executed, Account(99500, ps));
  }

  // ---------------------------------------------------------------------------
  // The portfolio object
  // ---------------------------------------------------------------------------

  datatype Stats = Stats(startValue: int, endValue: int, roi: real)

  class Portfolio {
    var cash: int
    const startValue: int
    var positions: seq<Position>
    const marketData: Market.MarketData

    ghost predicate Valid()
      reads this
    {
      UniqueSymbols(positions) && NonNegative(positions)
    }

    constructor (startValue: int, marketData: Market.MarketData)
      ensures Valid()
      ensures cash == startValue && this.startValue == startValue
      ensures positions == [] && this.marketData == marketData
    {
      cash := startValue;
      this.startValue := startValue;
      positions := [];
      this.marketData := marketData;
    }

    /** The position for `symbol`, if there is one. */
    function GetPosition(symbol: string): (position: Option<Position>)
      reads this
      ensures position.Some? <==> exists i :: 0 <= i < |positions| && positions[i].symbol == symbol
      ensures position.Some? ==> position.value.symbol == symbol && position.value in positions
      ensures position.Some? && Valid() ==> position.value.quantity == QuantityOf(positions, symbol)
    {
      QuantityAtIndex(positions, symbol);
      match IndexOf(positions, symbol)
      case None => None
      case Some(i) => Some(positions[i])
    }

    /**
     * Returns the position for `symbol`, appending a new quantity-0 one when there is
     * none; `index` is where it sits in the list.
     */
    method FindOrCreatePosition(symbol: string) returns (position: Position, index: nat)
      requires Valid()
      modifies this
      ensures Valid()
      ensures (positions, index) == FindOrCreate(old(positions), symbol)
      ensures index < |positions| && positions[index] == position && position.symbol == symbol
      ensures old(GetPosition(symbol)).Some? ==>
        positions == old(positions) && position == old(GetPosition(symbol)).value
      ensures old(GetPosition(symbol)).None? ==>
        positions == old(positions) + [NewPosition(symbol)] && position.quantity == 0
      ensures cash == old(cash)
    {
      var found := IndexOf(positions, symbol);
      if found.None? {
        UniqueAfterAppend(positions, NewPosition(symbol));
        positions := positions + [NewPosition(symbol)];
        index := |positions| - 1;
      } else {
        index := found.value;
      }
      position := positions[index];
    }

    /**
     * Validates, prices and executes one order, all or nothing. The new cash and
     * positions are those ApplyOrder gives; the ledger's invariants are kept.
     */
    method CreateOrder(options: OrderOptions) returns (outcome: OrderOutcome)
      requires Valid()
      modifies this
      ensures Valid()
      ensures (outcome, Account(cash, positions)) ==
        ApplyOrder(Account(old(cash), old(positions)), options, marketData.Prices())
      ensures AllOpen(old(positions)) ==> AllOpen(positions)
      ensures old(cash) >= 0 && (forall k :: k in marketData.securities ==> marketData.securities[k].price >= 0) ==>
        cash >= 0
    {
      ghost var before, prices := Account(cash, positions), marketData.Prices();
      ApplyOrderKeepsBooks(before, options, prices);
      var validated := Validate(options);
      if validated.Err? {
        return Failed(validated.error);
      }
      var order := validated.value;
      var currentPrice := marketData.GetPrice(order.symbol);
      if currentPrice.None? {
        return Failed(UnknownSymbol);
      }
      if order.side == Sell {
        outcome := SellShares(order.symbol, order.qty, currentPrice.value);
      } else {
        outcome := BuyShares(order.symbol, order.qty, currentPrice.value);
      }
    }

    /**
     * The sell branch of an order: with a position of `symbol` holding at least `qty`,
     * cash grows by qty * price and the position shrinks by qty, and once it reaches 0
     * every closed position is dropped; otherwise a warning and no change.
     */
    method SellShares(symbol: string, qty: int, price: int) returns (outcome: OrderOutcome)
      modifies this
      ensures (outcome, Account(cash, positions)) == ExecuteSell(Account(old(cash), old(positions)), symbol, qty, price)
    {
      var found := IndexOf(positions, symbol);
      if found.Some? && positions[found.value].quantity >= qty {
        var i := found.value;
        var remaining := positions[i].quantity - qty;
        var updated := positions[i := positions[i].(quantity := remaining)];
        cash := cash + qty * price;
        if remaining == 0 {
          positions := RemoveClosed(updated);
        } else {
          positions := updated;
        }
        outcome := Executed;
      } else {
        outcome := Warned(InsufficientPosition);
      }
    }

    /**
     * The buy branch of an order: with cash of at least qty * price, cash shrinks by that
     * amount and the found or created position of `symbol` grows by qty; otherwise a
     * warning and no change.
     */
    method BuyShares(symbol: string, qty: int, price: int) returns (outcome: OrderOutcome)
      requires Valid()
      modifies this
      ensures (outcome, Account(cash, positions)) == ExecuteBuy(Account(old(cash), old(positions)), symbol, qty, price)
    {
      if cash < qty * price {
        outcome := Warned(InsufficientCash);
      } else {
        var position, i := FindOrCreatePosition(symbol);
        cash := cash - qty * price;
        positions := positions[i := position.(quantity := position.quantity + qty)];
        outcome := Executed;
      }
    }

    /**
     * Cash plus the value of every position at the market data's current prices; None
     * where the source fails because a held symbol is not registered.
     */
    function GetValue(): (value: Option<int>)
      reads this, marketData
      ensures value.Some? <==> forall i :: 0 <= i < |positions| ==> positions[i].symbol in marketData.securities
      ensures value.Some? ==> value.value == cash + Holdings(positions, marketData.Prices())
    {
      var prices := marketData.Prices();
      if forall i :: 0 <= i < |positions| ==> positions[i].symbol in prices then
        Some(cash + Holdings(positions, prices))
      else
        None
    }

    /** Start value, end value and return on investment, endValue / startValue - 1. */
    function GetStats(): (stats: Option<Stats>)
      requires startValue != 0
      reads this, marketData
      ensures stats.Some? <==> GetValue().Some?
      ensures stats.Some? ==> stats.value.startValue == startValue && stats.value.endValue == GetValue().value
      ensures stats.Some? ==> (stats.value.roi + 1.0) * (startValue as real) == stats.value.endValue as real
    {
      match GetValue()
      case None => None
      case Some(endValue) => Some(Stats(startValue, endValue, (endValue as real) / (startValue as real) - 1.0))
    }
  }
}
