/** The long-only paper trader of `paper_trader.py`, over real numbers: the balance of its
    accounts over whole runs, and for which fee and slippage rates its trades make sense. */
module PaperTrader {
  import opened Prelude

  datatype Config = Config(feeRate: real, slippageBps: real) {
    predicate Valid() {
      feeRate >= 0.0 && slippageBps >= 0.0
    }

    function Slippage(): real {
      slippageBps / 10000.0
    }

    function BuyPrice(price: real): real {
      price * (1.0 + slippageBps / 10000.0)
    }

    function SellPrice(price: real): real {
      price * (1.0 - slippageBps / 10000.0)
    }

    /** What a sale leaves of its market value. */
    function Keep(): real {
      (1.0 - Slippage()) * (1.0 - feeRate)
    }

    /** What a sale at the market price `price` brings in. */
    function Proceeds(quantity: real, price: real): real {
      Portion(Notional(quantity, price), Keep())
    }

    /** What a purchase costs per unit of market value. */
    function Load(): real {
      (1.0 + Slippage()) * (1.0 + feeRate)
    }
  }

  datatype Account = Account(cash: real, position: real) {
    /** `mark_to_market`. */
    function Equity(price: real): real {
      cash + Notional(position, price)
    }
  }

  function Notional(quantity: real, price: real): real {
    quantity * price
  }

  function Portion(value: real, rate: real): real {
    value * rate
  }

  datatype PaperTrade = PaperTrade(
    index: int, symbol: string, signal: string, price: real, quantity: real,
    fee: real, cashAfter: real, positionAfter: real)

  // ---- one step ----

  /** The quantity whose notional and fee together cost `cash`. */
  function Affordable(cash: real, executionPrice: real, feeRate: real): real
    requires executionPrice * (1.0 + feeRate) != 0.0
  {
    cash / (executionPrice * (1.0 + feeRate))
  }

  function FeeOn(notional: real, feeRate: real): real {
    notional * feeRate
  }

  function Trade(cfg: Config, a: Account, index: int, symbol: string, signal: string, price: real): Option<PaperTrade>
    requires cfg.Valid() && price > 0.0
  {
    if signal == "LONG" && a.position == 0.0 then
      BuyingCosts(cfg, price);
      var executionPrice := cfg.BuyPrice(price);
      var quantity := Affordable(a.cash, executionPrice, cfg.feeRate);
      var notional := Notional(quantity, executionPrice);
      var fee := FeeOn(notional, cfg.feeRate);
      Some(PaperTrade(index, symbol, signal, executionPrice, quantity, fee, a.cash - (notional + fee), quantity))
    else if signal == "SHORT" && a.position > 0.0 then
      var executionPrice := cfg.SellPrice(price);
      var notional := Notional(a.position, executionPrice);
      var fee := FeeOn(notional, cfg.feeRate);
      Some(PaperTrade(index, symbol, signal, executionPrice, 0.0, fee, a.cash + (notional - fee), 0.0))
    else None
  }

  /** The trade of a step, field by field: a purchase of what all the cash pays for, at a price raised by
      the slippage, or a sale of the whole position at a price lowered by it, each less the fee. */
  lemma {:induction false} TradeIs(cfg: Config, a: Account, index: int, symbol: string, signal: string, price: real)
    requires cfg.Valid() && price > 0.0
    ensures var trade := Trade(cfg, a, index, symbol, signal, price);
      && (trade.Some? <==> (signal == "LONG" && a.position == 0.0) || (signal == "SHORT" && a.position > 0.0))
      && (trade.Some? ==>
           var t := trade.value;
           && t.index == index && t.symbol == symbol && t.signal == signal
           && if signal == "LONG" then
                && t.price == price + price * cfg.slippageBps / 10000.0
                && t.fee == t.quantity * t.price * cfg.feeRate && t.quantity * t.price + t.fee == a.cash
                && t.cashAfter == 0.0 && t.positionAfter == t.quantity
              else
                && t.price == price - price * cfg.slippageBps / 10000.0
                && t.fee == a.position * t.price * cfg.feeRate && t.quantity == 0.0
                && t.cashAfter == a.cash + a.position * t.price - t.fee && t.positionAfter == 0.0)
  {
    Spread(price, cfg.slippageBps);
    if signal == "LONG" && a.position == 0.0 {
      BuyingCosts(cfg, price);
      SpendsAll(a.cash, cfg.BuyPrice(price), cfg.feeRate);
    }
  }

  lemma {:induction false} Spread(price: real, bps: real)
    ensures price * (1.0 + bps / 10000.0) == price + price * bps / 10000.0
    ensures price * (1.0 - bps / 10000.0) == price - price * bps / 10000.0
  {
    var x := bps / 10000.0;
    assert price * (1.0 + x) == price + price * x && price * (1.0 - x) == price - price * x;
  }

  lemma {:induction false} BuyingCosts(cfg: Config, price: real)
    requires cfg.Valid() && price > 0.0
    ensures cfg.BuyPrice(price) * (1.0 + cfg.feeRate) == price * cfg.Load()
    ensures cfg.Load() >= 1.0 && price * cfg.Load() >= price
  {
    var s := cfg.Slippage();
    assert s >= 0.0;
    assert cfg.Load() == 1.0 + s + cfg.feeRate + s * cfg.feeRate;
    assert s * cfg.feeRate >= 0.0;
    Grow(price, cfg.Load());
  }

  lemma {:induction false} Grow(x: real, factor: real)
    requires x >= 0.0 && factor >= 1.0
    ensures x * factor >= x
  {
  }

  function Settle(a: Account, trade: Option<PaperTrade>): Account {
    if trade.Some? then Account(trade.value.cashAfter, trade.value.positionAfter) else a
  }

  function Step(cfg: Config, a: Account, signal: string, price: real): Account
    requires cfg.Valid() && price > 0.0
  {
    Settle(a, Trade(cfg, a, 0, "", signal, price))
  }

  lemma {:induction false} SpendsAll(cash: real, x: real, f: real)
    requires x * (1.0 + f) != 0.0
    ensures var q := Affordable(cash, x, f); cash - (q * x + q * x * f) == 0.0
  {
    var unit := x * (1.0 + f);
    var q := cash / unit;
    assert q * unit == cash;
    Expand(q, x, f);
  }

  lemma {:induction false} Expand(q: real, x: real, f: real)
    ensures q * (x * (1.0 + f)) == q * x + q * x * f
    ensures q * (x * (1.0 - f)) == q * x - q * x * f
  {
  }

  /** A purchase spends the cash to the last cent. */
  lemma {:induction false} BuyStep(cfg: Config, cash: real, price: real)
    requires cfg.Valid() && price > 0.0
    ensures price * cfg.Load() > 0.0
    ensures Step(cfg, Account(cash, 0.0), "LONG", price) == Account(0.0, cash / (price * cfg.Load()))
  {
    hide Config.BuyPrice, Config.Load, Step, Affordable;
    BuyingCosts(cfg, price);
    BuyStepAt(cfg, cash, price);
    SameDivisor(cash, cfg.BuyPrice(price), cfg.feeRate, price * cfg.Load());
  }

  lemma {:induction false} SameDivisor(cash: real, x: real, f: real, unit: real)
    requires x * (1.0 + f) == unit && unit != 0.0
    ensures Affordable(cash, x, f) == cash / unit
  {
  }

  lemma {:induction false} BuyStepAt(cfg: Config, cash: real, price: real)
    requires cfg.Valid() && price > 0.0 && cfg.BuyPrice(price) * (1.0 + cfg.feeRate) != 0.0
    ensures Step(cfg, Account(cash, 0.0), "LONG", price)
         == Account(0.0, Affordable(cash, cfg.BuyPrice(price), cfg.feeRate))
  {
    hide Config.BuyPrice, Affordable;
    SpendsAll(cash, cfg.BuyPrice(price), cfg.feeRate);
  }

  /** A sale turns the position into cash, less slippage and fee. */
  lemma {:induction false} SellStep(cfg: Config, a: Account, price: real)
    requires cfg.Valid() && price > 0.0 && a.position > 0.0
    ensures Step(cfg, a, "SHORT", price) == Account(a.cash + cfg.Proceeds(a.position, price), 0.0)
  {
    var f := cfg.feeRate;
    var executionPrice := cfg.SellPrice(price);
    Expand(a.position, executionPrice, f);
    assert executionPrice * (1.0 - f) == price * cfg.Keep();
    assert a.position * (price * cfg.Keep()) == a.position * price * cfg.Keep();
  }

  lemma {:induction false} IdleStep(cfg: Config, a: Account, signal: string, price: real)
    requires cfg.Valid() && price > 0.0
    requires !(signal == "LONG" && a.position == 0.0) && !(signal == "SHORT" && a.position > 0.0)
    ensures Step(cfg, a, signal, price) == a
  {
  }

  // ---- whole runs ----

  /** `n` steps can be made: there are as many signals and positive prices. */
  predicate Playable(prices: seq<real>, signals: seq<string>, n: nat) {
    n <= |prices| && n <= |signals| && forall i :: 0 <= i < n ==> prices[i] > 0.0
  }

  function AccountAt(cfg: Config, start: Account, prices: seq<real>, signals: seq<string>, n: nat): Account
    requires cfg.Valid() && Playable(prices, signals, n)
  {
    if n == 0 then start
    else Step(cfg, AccountAt(cfg, start, prices, signals, n - 1), signals[n - 1], prices[n - 1])
  }

  function TradeAt(cfg: Config, start: Account, symbol: string, prices: seq<real>, signals: seq<string>,
                   i: nat): Option<PaperTrade>
    requires cfg.Valid() && Playable(prices, signals, i + 1)
  {
    Trade(cfg, AccountAt(cfg, start, prices, signals, i), i, symbol, signals[i], prices[i])
  }

  function TradesAt(cfg: Config, start: Account, symbol: string, prices: seq<real>, signals: seq<string>,
                    n: nat): seq<PaperTrade>
    requires cfg.Valid() && Playable(prices, signals, n)
  {
    if n == 0 then []
    else
      var trade := TradeAt(cfg, start, symbol, prices, signals, n - 1);
      TradesAt(cfg, start, symbol, prices, signals, n - 1) + (if trade.Some? then [trade.value] else [])
  }

  // ---- the balance ----

  /** Fee and slippage of a trade: what is paid beyond the market price. */
  function Cost(a: Account, trade: Option<PaperTrade>, price: real): real {
    if trade.None? then 0.0
    else trade.value.fee + (trade.value.positionAfter - a.position) * (trade.value.price - price)
  }

  function CostsAt(cfg: Config, start: Account, prices: seq<real>, signals: seq<string>, n: nat): real
    requires cfg.Valid() && Playable(prices, signals, n)
  {
    if n == 0 then 0.0
    else
      CostsAt(cfg, start, prices, signals, n - 1)
      + Cost(AccountAt(cfg, start, prices, signals, n - 1), TradeAt(cfg, start, "", prices, signals, n - 1),
             prices[n - 1])
  }

  /** What a held position earns while the price moves. */
  function Gain(a: Account, from: real, to: real): real {
    a.position * (to - from)
  }

  /** What the positions held earned: each position times the price change until the next step. */
  function GainsAt(cfg: Config, start: Account, prices: seq<real>, signals: seq<string>, n: nat): real
    requires cfg.Valid() && Playable(prices, signals, n)
  {
    if n <= 1 then 0.0
    else
      GainsAt(cfg, start, prices, signals, n - 1)
      + Gain(AccountAt(cfg, start, prices, signals, n - 1), prices[n - 2], prices[n - 1])
  }

  /** A step changes the equity at its price by exactly the cost of its trade. */
  lemma {:induction false} StepBalance(cfg: Config, a: Account, signal: string, price: real)
    requires cfg.Valid() && price > 0.0
    ensures Step(cfg, a, signal, price).Equity(price)
         == a.Equity(price) - Cost(a, Trade(cfg, a, 0, "", signal, price), price)
  {
    var trade := Trade(cfg, a, 0, "", signal, price);
    if trade.Some? {
      var t := trade.value;
      TradeMoves(cfg, a, signal, price);
      hide Trade;
      if signal == "LONG" {
        Distribute(t.positionAfter, t.price, price);
      } else {
        Distribute(a.position, t.price, price);
      }
    }
  }

  /** What a trade does to cash and position, in terms of what it records. */
  lemma {:induction false} TradeMoves(cfg: Config, a: Account, signal: string, price: real)
    requires cfg.Valid() && price > 0.0 && Trade(cfg, a, 0, "", signal, price).Some?
    ensures var t := Trade(cfg, a, 0, "", signal, price).value;
      && t.cashAfter == a.cash - (t.positionAfter - a.position) * t.price - t.fee
      && (if signal == "LONG" then a.position == 0.0 else t.positionAfter == 0.0)
  {
    var t := Trade(cfg, a, 0, "", signal, price).value;
    if signal == "LONG" {
      assert (t.positionAfter - a.position) * t.price == t.quantity * t.price;
    } else {
      Distribute(a.position, t.price, 0.0);
      assert (t.positionAfter - a.position) * t.price == -(a.position * t.price);
    }
  }

  lemma {:induction false} Distribute(q: real, x: real, y: real)
    ensures q * (x - y) == q * x - q * y
    ensures (0.0 - q) * (x - y) == q * y - q * x
    ensures (0.0 - q) * x == -(q * x)
  {
  }

  lemma {:induction false} TradeIgnoresLabels(cfg: Config, a: Account, index: int, symbol: string, signal: string,
                                              price: real)
    requires cfg.Valid() && price > 0.0
    ensures Settle(a, Trade(cfg, a, index, symbol, signal, price)) == Step(cfg, a, signal, price)
    ensures Cost(a, Trade(cfg, a, index, symbol, signal, price), price)
         == Cost(a, Trade(cfg, a, 0, "", signal, price), price)
  {
  }

  lemma {:induction false} EquityMoves(a: Account, x: real, y: real)
    ensures a.Equity(x) == a.Equity(y) + Gain(a, y, x)
  {
    Distribute(a.position, x, y);
  }

  /** Conservation over a run: equity at the last step's price, plus every fee and all slippage
      paid, is the equity at the first price plus what the positions held earned. */
  lemma {:induction false} RunBalance(cfg: Config, start: Account, prices: seq<real>, signals: seq<string>, n: nat)
    requires cfg.Valid() && Playable(prices, signals, n) && n > 0
    ensures AccountAt(cfg, start, prices, signals, n).Equity(prices[n - 1]) + CostsAt(cfg, start, prices, signals, n)
         == start.Equity(prices[0]) + GainsAt(cfg, start, prices, signals, n)
  {
    hide Trade, Cost, Step, Gain, Account.Equity;
    var before := AccountAt(cfg, start, prices, signals, n - 1);
    var signal, price := signals[n - 1], prices[n - 1];
    var cost := Cost(before, TradeAt(cfg, start, "", prices, signals, n - 1), price);
    StepBalance(cfg, before, signal, price);
    TradeIgnoresLabels(cfg, before, n - 1, "", signal, price);
    assert AccountAt(cfg, start, prices, signals, n).Equity(price) == before.Equity(price) - cost;
    assert CostsAt(cfg, start, prices, signals, n) == CostsAt(cfg, start, prices, signals, n - 1) + cost;
    if n > 1 {
      RunBalance(cfg, start, prices, signals, n - 1);
      EquityMoves(before, price, prices[n - 2]);
      assert GainsAt(cfg, start, prices, signals, n)
          == GainsAt(cfg, start, prices, signals, n - 1) + Gain(before, prices[n - 2], price);
    } else {
      assert before == start;
      assert CostsAt(cfg, start, prices, signals, 0) == 0.0;
    }
  }

  // ---- solvency, alternation, constant prices ----

  /** Everything in cash or everything in the position. */
  predicate Solvent(a: Account) {
    (a.cash > 0.0 && a.position == 0.0) || (a.cash == 0.0 && a.position > 0.0)
  }

  /** Cash and position are never both there, at any rates. */
  lemma {:induction false} NeverBoth(cfg: Config, cash: real, prices: seq<real>, signals: seq<string>, n: nat)
    requires cfg.Valid() && Playable(prices, signals, n)
    ensures var a := AccountAt(cfg, Account(cash, 0.0), prices, signals, n);
      a.cash == 0.0 || a.position == 0.0
  {
    if n > 0 {
      NeverBoth(cfg, cash, prices, signals, n - 1);
      var a, signal, price := AccountAt(cfg, Account(cash, 0.0), prices, signals, n - 1), signals[n - 1], prices[n - 1];
      if signal == "LONG" && a.position == 0.0 {
        assert a == Account(a.cash, 0.0);
        BuyStep(cfg, a.cash, price);
      }
    }
  }

  lemma {:induction false} StepKeepsSolvent(cfg: Config, a: Account, signal: string, price: real)
    requires cfg.Valid() && price > 0.0 && cfg.Keep() > 0.0 && Solvent(a)
    ensures Solvent(Step(cfg, a, signal, price))
  {
    hide Step, Config.Keep, Config.Load, Config.Proceeds;
    if signal == "LONG" && a.position == 0.0 {
      BuyStep(cfg, a.cash, price);
    } else if signal == "SHORT" && a.position > 0.0 {
      SellStep(cfg, a, price);
      SignOfProceeds(cfg, a.position, price);
    } else {
      IdleStep(cfg, a, signal, price);
    }
  }

  ghost predicate AlwaysSolvent(cfg: Config, cash: real)
    requires cfg.Valid()
  {
    forall prices, signals, n: nat :: Playable(prices, signals, n) ==>
      Solvent(AccountAt(cfg, Account(cash, 0.0), prices, signals, n))
  }

  lemma {:induction false} RunKeepsSolvent(cfg: Config, cash: real, prices: seq<real>, signals: seq<string>, n: nat)
    requires cfg.Valid() && Playable(prices, signals, n) && cash > 0.0 && cfg.Keep() > 0.0
    ensures Solvent(AccountAt(cfg, Account(cash, 0.0), prices, signals, n))
  {
    hide Step, Config.Keep, Solvent;
    if n > 0 {
      RunKeepsSolvent(cfg, cash, prices, signals, n - 1);
      StepKeepsSolvent(cfg, AccountAt(cfg, Account(cash, 0.0), prices, signals, n - 1), signals[n - 1], prices[n - 1]);
    } else {
      StartIsSolvent(cash);
    }
  }

  lemma {:induction false} StartIsSolvent(cash: real)
    requires cash > 0.0
    ensures Solvent(Account(cash, 0.0))
  {
  }

  lemma {:induction false} UnitLoad(cfg: Config, cash: real) returns (quantity: real)
    requires cfg.Valid()
    ensures Step(cfg, Account(cash, 0.0), "LONG", 1.0) == Account(0.0, quantity)
    ensures quantity * cfg.Load() == cash && cfg.Load() >= 1.0
    ensures (quantity > 0.0 <==> cash > 0.0) && (quantity < 0.0 <==> cash < 0.0)
  {
    hide Config.Load, Step;
    BuyStep(cfg, cash, 1.0);
    BuyingCosts(cfg, 1.0);
    quantity := cash / (1.0 * cfg.Load());
    SignOfQuotient(quantity, cfg.Load(), cash);
  }

  lemma {:induction false} SignOfQuotient(q: real, d: real, c: real)
    requires d >= 1.0 && q * d == c
    ensures (q > 0.0 <==> c > 0.0) && (q < 0.0 <==> c < 0.0)
  {
  }

  /** Buying and selling once at the price 1: what is left is `Keep / Load` of the cash. */
  lemma {:induction false} RoundTrip(cfg: Config, cash: real, prices: seq<real>, signals: seq<string>)
    returns (quantity: real)
    requires cfg.Valid() && cash > 0.0 && Playable(prices, signals, 2)
    requires prices[0] == 1.0 && prices[1] == 1.0 && signals[0] == "LONG" && signals[1] == "SHORT"
    ensures quantity > 0.0 && quantity * cfg.Load() == cash
    ensures AccountAt(cfg, Account(cash, 0.0), prices, signals, 1) == Account(0.0, quantity)
    ensures AccountAt(cfg, Account(cash, 0.0), prices, signals, 2) == Account(quantity * cfg.Keep(), 0.0)
  {
    hide Config.Load, Config.Keep, Step;
    quantity := UnitLoad(cfg, cash);
    assert AccountAt(cfg, Account(cash, 0.0), prices, signals, 0) == Account(cash, 0.0);
    SellStep(cfg, Account(0.0, quantity), 1.0);
    assert quantity * 1.0 * cfg.Keep() == quantity * cfg.Keep();
  }

  /** All of the money is always in exactly one place, in every run, exactly when a sale keeps
      something of its value. */
  lemma {:induction false} SolventIffSalesKeep(cfg: Config, cash: real)
    requires cfg.Valid() && cash > 0.0
    ensures AlwaysSolvent(cfg, cash) <==> cfg.Keep() > 0.0
  {
    hide Config.Keep, AccountAt;
    if cfg.Keep() > 0.0 {
      forall prices, signals, n: nat | Playable(prices, signals, n)
        ensures Solvent(AccountAt(cfg, Account(cash, 0.0), prices, signals, n))
      {
        RunKeepsSolvent(cfg, cash, prices, signals, n);
      }
    } else {
      var prices, signals := [1.0, 1.0], ["LONG", "SHORT"];
      assert Playable(prices, signals, 2);
      var quantity := RoundTrip(cfg, cash, prices, signals);
      Scaled(quantity, cfg.Keep());
      assert !Solvent(AccountAt(cfg, Account(cash, 0.0), prices, signals, 2));
    }
  }

  lemma {:induction false} Scaled(q: real, k: real)
    requires q > 0.0
    ensures (k > 0.0 <==> q * k > 0.0) && (k == 0.0 <==> q * k == 0.0) && (k < 0.0 <==> q * k < 0.0)
    ensures (k > 1.0 <==> q * k > q)
  {
  }

  // ---- alternation ----

  predicate Alternates(trades: seq<PaperTrade>) {
    forall i :: 0 <= i < |trades| ==> trades[i].signal == (if i % 2 == 0 then "LONG" else "SHORT")
  }

  /** After an even number of trades everything is in cash, after an odd number in the position. */
  predicate Parity(a: Account, trades: nat) {
    if trades % 2 == 0 then a.position == 0.0 && a.cash != 0.0 else a.cash == 0.0 && a.position != 0.0
  }

  lemma {:induction false} StepParity(cfg: Config, a: Account, trades: nat, index: int, symbol: string,
                                      signal: string, price: real)
    requires cfg.Valid() && price > 0.0 && cfg.Keep() != 0.0 && Parity(a, trades)
    ensures var trade := Trade(cfg, a, index, symbol, signal, price);
      && Parity(Settle(a, trade), if trade.Some? then trades + 1 else trades)
      && (trade.Some? ==> trade.value.signal == signal == (if trades % 2 == 0 then "LONG" else "SHORT"))
  {
    TradeIgnoresLabels(cfg, a, index, symbol, signal, price);
    TradeWhen(cfg, a, index, symbol, signal, price);
    hide Trade, Step, Settle, Config.Keep, Config.Load, Config.Proceeds;
    if signal == "LONG" && a.position == 0.0 {
      assert a == Account(a.cash, 0.0);
      BuyStep(cfg, a.cash, price);
      NotZero(a.cash, price * cfg.Load());
    } else if signal == "SHORT" && a.position > 0.0 {
      SellStep(cfg, a, price);
      SignOfProceeds(cfg, a.position, price);
    } else {
      IdleStep(cfg, a, signal, price);
    }
  }

  lemma {:induction false} NotZero(c: real, d: real)
    requires c != 0.0 && d > 0.0
    ensures c / d != 0.0
  {
    assert c / d * d == c;
  }

  lemma {:induction false} TradeWhen(cfg: Config, a: Account, index: int, symbol: string, signal: string, price: real)
    requires cfg.Valid() && price > 0.0
    ensures var trade := Trade(cfg, a, index, symbol, signal, price);
      && (trade.Some? <==> (signal == "LONG" && a.position == 0.0) || (signal == "SHORT" && a.position > 0.0))
      && (trade.Some? ==> trade.value.signal == signal)
  {
  }

  lemma {:induction false} RunParity(cfg: Config, cash: real, symbol: string, prices: seq<real>,
                                     signals: seq<string>, n: nat)
    requires cfg.Valid() && Playable(prices, signals, n) && cash > 0.0 && cfg.Keep() != 0.0
    ensures var trades := TradesAt(cfg, Account(cash, 0.0), symbol, prices, signals, n);
      Alternates(trades) && Parity(AccountAt(cfg, Account(cash, 0.0), prices, signals, n), |trades|)
  {
    hide Trade, Step, Config.Keep;
    if n > 0 {
      var start := Account(cash, 0.0);
      RunParity(cfg, cash, symbol, prices, signals, n - 1);
      var a := AccountAt(cfg, start, prices, signals, n - 1);
      var trades := TradesAt(cfg, start, symbol, prices, signals, n - 1);
      StepParity(cfg, a, |trades|, n - 1, symbol, signals[n - 1], prices[n - 1]);
      TradeIgnoresLabels(cfg, a, n - 1, symbol, signals[n - 1], prices[n - 1]);
    }
  }

  ghost predicate AlwaysAlternates(cfg: Config, cash: real)
    requires cfg.Valid()
  {
    forall symbol, prices, signals, n: nat :: Playable(prices, signals, n) ==>
      Alternates(TradesAt(cfg, Account(cash, 0.0), symbol, prices, signals, n))
  }

  lemma {:induction false} RuinedBuysAgain(cfg: Config, index: int, symbol: string)
    requires cfg.Valid()
    ensures Step(cfg, Account(0.0, 0.0), "LONG", 1.0) == Account(0.0, 0.0)
    ensures var trade := Trade(cfg, Account(0.0, 0.0), index, symbol, "LONG", 1.0);
      trade.Some? && trade.value.signal == "LONG"
  {
    var quantity := UnitLoad(cfg, 0.0);
    assert quantity == 0.0;
  }

  /** Trades alternate between buying and selling in every run exactly when a sale does not lose
      everything. */
  lemma {:induction false} AlternatesIffSalesKeep(cfg: Config, cash: real)
    requires cfg.Valid() && cash > 0.0
    ensures AlwaysAlternates(cfg, cash) <==> cfg.Keep() != 0.0
  {
    hide Config.Keep, AccountAt, TradesAt;
    if cfg.Keep() != 0.0 {
      forall symbol, prices, signals, n: nat | Playable(prices, signals, n)
        ensures Alternates(TradesAt(cfg, Account(cash, 0.0), symbol, prices, signals, n))
      {
        RunParity(cfg, cash, symbol, prices, signals, n);
      }
    } else {
      LosingEverythingBuysTwice(cfg, cash);
    }
  }

  lemma {:induction false} LosingEverythingBuysTwice(cfg: Config, cash: real)
    requires cfg.Valid() && cash > 0.0 && cfg.Keep() == 0.0
    ensures !AlwaysAlternates(cfg, cash)
  {
    hide Config.Keep, Step, Trade, Alternates;
    var prices, signals := [1.0, 1.0, 1.0, 1.0], ["LONG", "SHORT", "LONG", "LONG"];
    var start := Account(cash, 0.0);
    assert Playable(prices, signals, 4);
    var quantity := RoundTrip(cfg, cash, prices, signals);
    assert quantity * cfg.Keep() == 0.0;
    RuinedBuysAgain(cfg, 2, "");
    RuinedBuysAgain(cfg, 3, "");
    var ruined := Account(0.0, 0.0);
    assert AccountAt(cfg, start, prices, signals, 2) == ruined;
    assert AccountAt(cfg, start, prices, signals, 3) == ruined;
    FirstTrades(cfg, cash, prices, signals);
    assert TradeAt(cfg, start, "", prices, signals, 2) == Trade(cfg, ruined, 2, "", "LONG", 1.0);
    assert TradeAt(cfg, start, "", prices, signals, 3) == Trade(cfg, ruined, 3, "", "LONG", 1.0);
    assert |TradesAt(cfg, start, "", prices, signals, 3)| == 3;
    var trades := TradesAt(cfg, start, "", prices, signals, 4);
    assert |trades| == 4 && trades[3].signal == "LONG";
    assert !Alternates(trades) by {
      NotAlternating(trades);
    }
  }

  lemma {:induction false} NotAlternating(trades: seq<PaperTrade>)
    requires |trades| == 4 && trades[3].signal == "LONG"
    ensures !Alternates(trades)
  {
    assert trades[3].signal != "SHORT";
  }

  lemma {:induction false} FirstTrades(cfg: Config, cash: real, prices: seq<real>, signals: seq<string>)
    requires cfg.Valid() && cash > 0.0 && Playable(prices, signals, 2)
    requires prices[0] == 1.0 && prices[1] == 1.0 && signals[0] == "LONG" && signals[1] == "SHORT"
    ensures |TradesAt(cfg, Account(cash, 0.0), "", prices, signals, 2)| == 2
  {
    var quantity := RoundTrip(cfg, cash, prices, signals);
    hide Step;
    var start := Account(cash, 0.0);
    assert TradeAt(cfg, start, "", prices, signals, 0).Some? by {
      assert AccountAt(cfg, start, prices, signals, 0) == start;
    }
    assert TradeAt(cfg, start, "", prices, signals, 1).Some?;
    assert TradesAt(cfg, start, "", prices, signals, 0) == [];
    assert |TradesAt(cfg, start, "", prices, signals, 1)| == 1;
  }

  // ---- constant prices ----

  predicate Constant(prices: seq<real>) {
    forall i :: 0 <= i < |prices| ==> prices[i] == prices[0]
  }

  /** At a constant price, no step of any run raises the equity. */
  ghost predicate NeverRises(cfg: Config, cash: real)
    requires cfg.Valid()
  {
    forall prices, signals, n: nat :: Playable(prices, signals, n + 1) && Constant(prices) ==>
      Falls(cfg, cash, prices, signals, n)
  }

  predicate Falls(cfg: Config, cash: real, prices: seq<real>, signals: seq<string>, n: nat)
    requires cfg.Valid() && Playable(prices, signals, n + 1)
  {
    AccountAt(cfg, Account(cash, 0.0), prices, signals, n + 1).Equity(prices[0])
    <= AccountAt(cfg, Account(cash, 0.0), prices, signals, n).Equity(prices[0])
  }

  predicate NonNegative(a: Account) {
    a.cash >= 0.0 && a.position >= 0.0
  }

  lemma {:induction false} FairStep(cfg: Config, a: Account, signal: string, price: real)
    requires cfg.Valid() && price > 0.0 && 0.0 <= cfg.Keep() <= 1.0 && NonNegative(a)
    ensures NonNegative(Step(cfg, a, signal, price))
    ensures Step(cfg, a, signal, price).Equity(price) <= a.Equity(price)
  {
    hide Step, Config.Keep, Config.Load, Config.Proceeds;
    if signal == "LONG" && a.position == 0.0 {
      assert a == Account(a.cash, 0.0);
      FairPurchaseStep(cfg, a.cash, price);
    } else if signal == "SHORT" && a.position > 0.0 {
      FairSaleStep(cfg, a, price);
    } else {
      IdleStep(cfg, a, signal, price);
    }
  }

  lemma {:induction false} OnlyCash(cash: real, price: real)
    ensures Account(cash, 0.0).Equity(price) == cash
  {
  }

  lemma {:induction false} FlatEquity(a: Account, price: real)
    requires a.position == 0.0
    ensures a.Equity(price) == a.cash
  {
    assert Notional(0.0, price) == 0.0;
  }

  lemma {:induction false} EquityIs(a: Account, price: real)
    ensures a.Equity(price) == a.cash + Notional(a.position, price)
  {
  }

  lemma {:induction false} FairSaleStep(cfg: Config, a: Account, price: real)
    requires cfg.Valid() && price > 0.0 && 0.0 <= cfg.Keep() <= 1.0 && NonNegative(a) && a.position > 0.0
    ensures NonNegative(Step(cfg, a, "SHORT", price))
    ensures Step(cfg, a, "SHORT", price).Equity(price) <= a.Equity(price)
  {
    hide Step, Config.Keep, Config.Proceeds, Account.Equity, Notional;
    SellStep(cfg, a, price);
    FairValue(cfg, a.position, price);
    FlatEquity(Step(cfg, a, "SHORT", price), price);
    EquityIs(a, price);
  }

  lemma {:induction false} FairPurchaseStep(cfg: Config, cash: real, price: real)
    requires cfg.Valid() && price > 0.0 && cash >= 0.0
    ensures var after := Step(cfg, Account(cash, 0.0), "LONG", price);
      NonNegative(after) && after.Equity(price) <= Account(cash, 0.0).Equity(price)
  {
    hide Step, Config.Load, Account.Equity;
    BuyStep(cfg, cash, price);
    BuyingCosts(cfg, price);
    var quantity := cash / (price * cfg.Load());
    FairPurchase(quantity, price, cfg.Load(), cash);
    EquityIs(Account(0.0, quantity), price);
    OnlyCash(cash, price);
  }

  lemma {:induction false} FairPurchase(q: real, price: real, rate: real, cash: real)
    requires price > 0.0 && rate >= 1.0 && q * (price * rate) == cash && cash >= 0.0
    requires price * rate >= price
    ensures q >= 0.0 && q * price <= cash
  {
    var unit := price * rate;
    assert q >= 0.0;
    assert q * (unit - price) >= 0.0;
    Distribute(q, unit, price);
  }

  lemma {:induction false} FairSale(worth: real, k: real)
    requires worth >= 0.0 && 0.0 <= k <= 1.0
    ensures 0.0 <= Portion(worth, k) <= worth
  {
  }

  lemma {:induction false} FairValue(cfg: Config, quantity: real, price: real)
    requires quantity > 0.0 && price > 0.0 && 0.0 <= cfg.Keep() <= 1.0
    ensures 0.0 <= cfg.Proceeds(quantity, price) <= Notional(quantity, price)
  {
    hide Notional, Config.Keep, Portion;
    PositiveNotional(quantity, price);
    FairSale(Notional(quantity, price), cfg.Keep());
  }

  /** The proceeds of a sale have the sign of what a sale keeps. */
  lemma {:induction false} SignOfProceeds(cfg: Config, quantity: real, price: real)
    requires quantity > 0.0 && price > 0.0
    ensures cfg.Keep() > 0.0 ==> cfg.Proceeds(quantity, price) > 0.0
    ensures cfg.Keep() < 0.0 ==> cfg.Proceeds(quantity, price) < 0.0
  {
    hide Notional, Config.Keep;
    PositiveNotional(quantity, price);
    Scaled(Notional(quantity, price), cfg.Keep());
  }

  lemma {:induction false} PositiveNotional(quantity: real, price: real)
    requires quantity > 0.0 && price > 0.0
    ensures Notional(quantity, price) > 0.0
  {
    Scaled(quantity, price);
  }

  lemma {:induction false} FairRun(cfg: Config, cash: real, prices: seq<real>, signals: seq<string>, n: nat)
    requires cfg.Valid() && cash > 0.0 && 0.0 <= cfg.Keep() <= 1.0 && Playable(prices, signals, n)
    ensures NonNegative(AccountAt(cfg, Account(cash, 0.0), prices, signals, n))
  {
    hide Step, Config.Keep;
    if n > 0 {
      FairRun(cfg, cash, prices, signals, n - 1);
      FairStep(cfg, AccountAt(cfg, Account(cash, 0.0), prices, signals, n - 1), signals[n - 1], prices[n - 1]);
    }
  }

  /** At constant prices trading only costs, in every run and at every step, exactly when a sale
      yields between nothing and its market value. */
  lemma {:induction false} NeverRisesIffSalesAreFair(cfg: Config, cash: real)
    requires cfg.Valid() && cash > 0.0
    ensures NeverRises(cfg, cash) <==> 0.0 <= cfg.Keep() <= 1.0
  {
    hide Config.Keep, AccountAt;
    if 0.0 <= cfg.Keep() <= 1.0 {
      forall prices, signals, n: nat | Playable(prices, signals, n + 1) && Constant(prices)
        ensures Falls(cfg, cash, prices, signals, n)
      {
        FairFall(cfg, cash, prices, signals, n);
      }
    } else if cfg.Keep() > 1.0 {
      GenerousSaleRises(cfg, cash);
    } else {
      DebtRises(cfg, cash);
    }
  }

  lemma {:induction false} FairFall(cfg: Config, cash: real, prices: seq<real>, signals: seq<string>, n: nat)
    requires cfg.Valid() && cash > 0.0 && 0.0 <= cfg.Keep() <= 1.0
    requires Playable(prices, signals, n + 1) && Constant(prices)
    ensures Falls(cfg, cash, prices, signals, n)
  {
    hide Step, Config.Keep, Account.Equity;
    FairRun(cfg, cash, prices, signals, n);
    FairStep(cfg, AccountAt(cfg, Account(cash, 0.0), prices, signals, n), signals[n], prices[n]);
  }

  /** With both rates far above one, a sale pays more than the market price. */
  lemma {:induction false} GenerousSaleRises(cfg: Config, cash: real)
    requires cfg.Valid() && cash > 0.0 && cfg.Keep() > 1.0
    ensures !NeverRises(cfg, cash)
  {
    hide Config.Keep, Config.Load, AccountAt;
    var prices, signals := [1.0, 1.0], ["LONG", "SHORT"];
    assert Playable(prices, signals, 1 + 1) && Constant(prices);
    var quantity := RoundTrip(cfg, cash, prices, signals);
    Scaled(quantity, cfg.Keep());
    assert !Falls(cfg, cash, prices, signals, 1);
  }

  /** With one rate above one, a sale ends in debt, and the next purchase shrinks the debt. */
  lemma {:induction false} DebtRises(cfg: Config, cash: real)
    requires cfg.Valid() && cash > 0.0 && cfg.Keep() < 0.0
    ensures !NeverRises(cfg, cash)
  {
    var prices, signals := [1.0, 1.0, 1.0], ["LONG", "SHORT", "LONG"];
    assert Playable(prices, signals, 2 + 1) && Constant(prices);
    LoadAboveOne(cfg);
    hide Config.Keep, Config.Load, Step;
    var quantity := RoundTrip(cfg, cash, prices, signals);
    Scaled(quantity, cfg.Keep());
    var debt := quantity * cfg.Keep();
    var short := UnitLoad(cfg, debt);
    Shrinks(short, cfg.Load(), debt);
    assert AccountAt(cfg, Account(cash, 0.0), prices, signals, 3) == Account(0.0, short);
    assert !Falls(cfg, cash, prices, signals, 2);
  }

  lemma {:induction false} Shrinks(q: real, rate: real, c: real)
    requires rate > 1.0 && q * rate == c && c < 0.0
    ensures q > c
  {
    Distribute(q, rate, 1.0);
    assert q < 0.0;
    assert q * (rate - 1.0) < 0.0;
  }

  lemma {:induction false} LoadAboveOne(cfg: Config)
    requires cfg.Valid() && cfg.Keep() < 0.0
    ensures cfg.Load() > 1.0
  {
    var s, f := cfg.Slippage(), cfg.feeRate;
    assert s >= 0.0 && s * f >= 0.0;
    assert cfg.Load() == 1.0 + s + f + s * f;
    if s == 0.0 && f == 0.0 {
      NoRates(s, f);
    }
  }

  lemma {:induction false} NoRates(s: real, f: real)
    requires s == 0.0 && f == 0.0
    ensures (1.0 - s) * (1.0 - f) == 1.0
  {
  }

  /** Rates below one, such as the defaults, meet all three conditions. */
  lemma {:induction false} RatesBelowOne(cfg: Config)
    requires cfg.Valid() && cfg.feeRate < 1.0 && cfg.slippageBps < 10000.0
    ensures 0.0 < cfg.Keep() <= 1.0
  {
    var s, f := cfg.Slippage(), cfg.feeRate;
    assert 0.0 <= s < 1.0;
    Scaled(1.0 - s, 1.0 - f);
    FairSale(1.0 - s, 1.0 - f);
  }

  // ---- the trader ----

  datatype StepResult = PriceError | NoTrade | Filled(trade: PaperTrade)

  datatype RunSummary = RunSummary(startingCash: real, endingEquity: real, tradeCount: nat, trades: seq<PaperTrade>)

  /** How many of the first `m` prices come before the first that is not positive. */
  function PositiveRun(prices: seq<real>, m: nat): (k: nat)
    requires m <= |prices|
    ensures k <= m && (forall i :: 0 <= i < k ==> prices[i] > 0.0) && (k < m ==> prices[k] <= 0.0)
  {
    if m == 0 then 0
    else
      var k := PositiveRun(prices, m - 1);
      if k == m - 1 && prices[m - 1] > 0.0 then m else k
  }

  function Shorter(prices: seq<real>, signals: seq<string>): nat {
    if |prices| <= |signals| then |prices| else |signals|
  }

  class PaperTrader {
    const startingCash: real
    const config: Config
    var cash: real
    var position: real
    var trades: seq<PaperTrade>

    ghost function State(): Account
      reads this
    {
      Account(cash, position)
    }

    /** What `run` reports: the equity at the last price given, and all trades so far. */
    ghost function Summary(prices: seq<real>): RunSummary
      reads this
    {
      var last := if prices == [] then 0.0 else prices[|prices| - 1];
      RunSummary(startingCash, State().Equity(last), |trades|, trades)
    }

    constructor (startingCash: real, config: Config)
      requires startingCash > 0.0 && config.Valid()
      ensures this.startingCash == startingCash && this.config == config
      ensures State() == Account(startingCash, 0.0) && trades == []
    {
      this.startingCash := startingCash;
      this.config := config;
      cash := startingCash;
      position := 0.0;
      trades := [];
    }

    /** The constructor as its callers see it: null stands for the ValueError. */
    static method Build(startingCash: real, feeRate: real, slippageBps: real) returns (trader: PaperTrader?)
      ensures trader == null <==> startingCash <= 0.0 || feeRate < 0.0 || slippageBps < 0.0
      ensures trader != null ==>
        && fresh(trader) && trader.startingCash == startingCash && trader.config == Config(feeRate, slippageBps)
        && trader.config.Valid() && trader.State() == Account(startingCash, 0.0) && trader.trades == []
    {
      if startingCash <= 0.0 || feeRate < 0.0 || slippageBps < 0.0 {
        return null;
      }
      trader := new PaperTrader(startingCash, Config(feeRate, slippageBps));
    }

    /** `step`. */
    method StepOnce(index: int, symbol: string, signal: string, price: real) returns (r: StepResult)
      requires config.Valid()
      modifies this`cash, this`position, this`trades
      ensures r == PriceError <==> price <= 0.0
      ensures price <= 0.0 ==> State() == old(State()) && trades == old(trades)
      ensures price > 0.0 ==>
        var trade := Trade(config, old(State()), index, symbol, signal, price);
        && State() == Settle(old(State()), trade)
        && r == (if trade.Some? then Filled(trade.value) else NoTrade)
        && trades == old(trades) + (if trade.Some? then [trade.value] else [])
    {
      hide Config.BuyPrice, Config.SellPrice, Config.Load, Affordable, Notional, FeeOn;
      if price <= 0.0 {
        return PriceError;
      }
      var executionPrice, quantity, fee: real;
      if signal == "LONG" && position == 0.0 {
        BuyingCosts(config, price);
        executionPrice := config.BuyPrice(price);
        quantity := Affordable(cash, executionPrice, config.feeRate);
        var notional := Notional(quantity, executionPrice);
        fee := FeeOn(notional, config.feeRate);
        cash := cash - (notional + fee);
        position := quantity;
      } else if signal == "SHORT" && position > 0.0 {
        executionPrice := config.SellPrice(price);
        var notional := Notional(position, executionPrice);
        fee := FeeOn(notional, config.feeRate);
        cash := cash + (notional - fee);
        position := 0.0;
        quantity := 0.0;
      } else {
        return NoTrade;
      }
      var trade := PaperTrade(index, symbol, signal, executionPrice, quantity, fee, cash, position);
      trades := trades + [trade];
      r := Filled(trade);
    }

    /** `mark_to_market`. */
    method MarkToMarket(price: real) returns (equity: real)
      ensures equity == State().Equity(price)
    {
      equity := cash + position * price;
    }

    /** `run`; None stands for the ValueError, which leaves the steps before it done. */
    method Run(symbol: string, prices: seq<real>, signals: seq<string>) returns (r: Option<RunSummary>)
      requires config.Valid()
      modifies this`cash, this`position, this`trades
      ensures var k := PositiveRun(prices, Shorter(prices, signals));
        && Playable(prices, signals, k)
        && State() == AccountAt(config, old(State()), prices, signals, k)
        && trades == old(trades) + TradesAt(config, old(State()), symbol, prices, signals, k)
        && (r.Some? <==> k == Shorter(prices, signals))
      ensures r.Some? ==> r.value == Summary(prices)
    {
      hide Trade;
      ghost var start, before := State(), trades;
      var m := Shorter(prices, signals);
      ghost var k := PositiveRun(prices, m);
      for i := 0 to m
        invariant i <= k && Playable(prices, signals, i)
        invariant State() == AccountAt(config, start, prices, signals, i)
        invariant trades == before + TradesAt(config, start, symbol, prices, signals, i)
      {
        ghost var a := State();
        var result := StepOnce(i, symbol, signals[i], prices[i]);
        if result == PriceError {
          return None;
        }
        TradeIgnoresLabels(config, a, i, symbol, signals[i], prices[i]);
      }
      var last := if prices == [] then 0.0 else prices[|prices| - 1];
      var equity := MarkToMarket(last);
      r := Some(RunSummary(startingCash, equity, |trades|, trades));
    }
  }

  /** The run of a fresh trader: its ending equity plus every fee and all slippage paid is the
      starting cash plus each held position times its price changes, the last one up to the last
      price given, traded or not. */
  lemma {:induction false} EndingEquity(cfg: Config, cash: real, prices: seq<real>, signals: seq<string>)
    requires cfg.Valid() && prices != [] && signals != []
    requires PositiveRun(prices, Shorter(prices, signals)) == Shorter(prices, signals)
    ensures var n, last, start := Shorter(prices, signals), prices[|prices| - 1], Account(cash, 0.0);
      && Playable(prices, signals, n)
      && AccountAt(cfg, start, prices, signals, n).Equity(last) + CostsAt(cfg, start, prices, signals, n)
      == cash + GainsAt(cfg, start, prices, signals, n)
         + Gain(AccountAt(cfg, start, prices, signals, n), prices[n - 1], last)
  {
    var n, last, start := Shorter(prices, signals), prices[|prices| - 1], Account(cash, 0.0);
    assert Playable(prices, signals, n);
    hide AccountAt, CostsAt, GainsAt, Gain, Account.Equity, Playable, PositiveRun;
    RunBalance(cfg, start, prices, signals, n);
    EquityMoves(AccountAt(cfg, start, prices, signals, n), last, prices[n - 1]);
    OnlyCash(cash, prices[0]);
  }
}
