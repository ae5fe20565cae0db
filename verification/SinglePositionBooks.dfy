/**
 * The single-position replay as values: its configuration, the stop that a peak earns, the
 * trade list and the run totals that follow from it.
 */
module SinglePositionBooks {
  import opened Excursion
  import opened Numeric

  datatype Config = Config(
    initialEquity: real, marginQuote: real, leverage: real,
    initialStopBps: real, breakEvenTriggerBps: real, breakEvenFloorBps: real,
    trailingTriggerBps: real, trailingDrawdownBps: real,
    maxHoldingNs: int, cooldownBars: int, feeRate: real, slippageBps: real)

  predicate ValidConfig(c: Config) {
    && c.initialEquity > 0.0 && c.marginQuote > 0.0 && c.leverage > 0.0
    && c.initialStopBps > 0.0 && c.breakEvenTriggerBps > 0.0 && c.breakEvenFloorBps >= 0.0
    && c.trailingTriggerBps > 0.0 && c.trailingDrawdownBps > 0.0
    && c.maxHoldingNs > 0 && c.cooldownBars >= 0 && c.feeRate >= 0.0 && c.slippageBps >= 0.0
    && c.breakEvenFloorBps < c.breakEvenTriggerBps <= c.trailingTriggerBps
  }

  datatype Reason = InitialStop | BreakEven | TrailingStop | AmbiguousStop | MaxHolding | DatasetEnd | Market(text: string)

  /** The kind a reason text counts as: a caller's text that reads like a label of the engine's own is that label. */
  function ReasonOf(text: string): Reason {
    if text == "initial_stop" then InitialStop
    else if text == "break_even" then BreakEven
    else if text == "trailing_stop" then TrailingStop
    else if text == "same_bar_ambiguous_stop" then AmbiguousStop
    else if text == "max_holding" then MaxHolding
    else if text == "dataset_end" then DatasetEnd
    else Market(text)
  }

  datatype Trade = Trade(
    side: Side, entryTime: int, exitTime: int, entryPrice: real, reason: Reason,
    grossBps: real, netPnl: real, mfe: real, mae: real, giveback: real)

  // ----- the stop a peak earns -----

  /** The stop in force once the position's best excursion so far is `peak`. */
  function StopFor(c: Config, peak: real): real {
    var entered := -c.initialStopBps;
    var floored := if peak >= c.breakEvenTriggerBps then Max(entered, c.breakEvenFloorBps) else entered;
    if peak >= c.trailingTriggerBps then Max(floored, peak - c.trailingDrawdownBps) else floored
  }

  /** A higher peak never loosens the stop, and ratcheting the old stop gives nothing else. */
  lemma {:induction false} StopOnlyTightens(c: Config, peak: real, higher: real)
    requires ValidConfig(c) && peak <= higher
    ensures -c.initialStopBps <= StopFor(c, peak) <= StopFor(c, higher)
    ensures var floored := if higher >= c.breakEvenTriggerBps then Max(StopFor(c, peak), c.breakEvenFloorBps) else StopFor(c, peak);
            StopFor(c, higher) == if higher >= c.trailingTriggerBps then Max(floored, higher - c.trailingDrawdownBps) else floored
  {
  }

  /** The label the exit branch derives from the stop alone. */
  function StopLabel(c: Config, stop: real, favorable: real): Reason {
    if stop >= c.trailingTriggerBps - c.trailingDrawdownBps then TrailingStop
    else if stop >= c.breakEvenFloorBps then BreakEven
    else if favorable >= c.breakEvenTriggerBps then AmbiguousStop
    else InitialStop
  }

  /** The protection the earlier bars actually reached; a trigger met only inside the exit bar is ambiguous. */
  function ProtectionReached(c: Config, peak: real, favorable: real): Reason {
    if peak >= c.trailingTriggerBps then TrailingStop
    else if peak >= c.breakEvenTriggerBps then BreakEven
    else if favorable >= c.breakEvenTriggerBps then AmbiguousStop
    else InitialStop
  }

  predicate LabelsDistinguish(c: Config) {
    || c.trailingTriggerBps - c.trailingDrawdownBps > c.breakEvenFloorBps
    || (c.breakEvenTriggerBps == c.trailingTriggerBps && c.trailingTriggerBps - c.trailingDrawdownBps > -c.initialStopBps)
  }

  /** The label always names the protection reached exactly for configurations that keep the levels apart. */
  lemma {:induction false} LabelsAreHonest(c: Config)
    requires ValidConfig(c)
    ensures LabelsDistinguish(c) <==> forall peak, favorable :: peak >= 0.0 ==>
         StopLabel(c, StopFor(c, peak), favorable) == ProtectionReached(c, peak, favorable)
  {
    if !LabelsDistinguish(c) {
      var peak := if c.breakEvenTriggerBps < c.trailingTriggerBps then c.breakEvenTriggerBps else 0.0;
      assert StopLabel(c, StopFor(c, peak), 0.0) != ProtectionReached(c, peak, 0.0);
    }
  }

  // ----- costs -----

  function Notional(c: Config): real {
    c.marginQuote * c.leverage
  }

  function CostBps(c: Config): real {
    c.feeRate * 2.0 * 10000.0 + c.slippageBps * 2.0
  }

  function Cost(c: Config): real {
    Notional(c) * CostBps(c) / 10000.0
  }

  function NetPnl(c: Config, grossBps: real): real {
    Notional(c) * grossBps / 10000.0 - Cost(c)
  }

  lemma {:induction false} NetLossBound(c: Config, grossBps: real)
    requires ValidConfig(c) && grossBps >= -c.initialStopBps
    ensures NetPnl(c, grossBps) >= -(Notional(c) * (c.initialStopBps + CostBps(c)) / 10000.0)
  {
  }

  // ----- the equity curve -----

  /** Equity after the first n trades. */
  function Equity(initial: real, trades: seq<Trade>, n: nat): real
    requires n <= |trades|
  {
    if n == 0 then initial else Equity(initial, trades, n - 1) + trades[n - 1].netPnl
  }

  lemma {:induction false} EquitySnoc(initial: real, trades: seq<Trade>, t: Trade, n: nat)
    requires n <= |trades|
    ensures Equity(initial, trades + [t], n) == Equity(initial, trades, n)
    ensures Equity(initial, trades + [t], |trades| + 1) == Equity(initial, trades + [t], |trades|) + t.netPnl
    decreases n
  {
    if n > 0 {
      EquitySnoc(initial, trades, t, n - 1);
    }
  }

  ghost predicate IsPeak(initial: real, trades: seq<Trade>, peak: real) {
    && (forall i :: 0 <= i <= |trades| ==> Equity(initial, trades, i) <= peak)
    && exists i :: 0 <= i <= |trades| && Equity(initial, trades, i) == peak
  }

  function FallPct(fall: real, from: real): real {
    if from == 0.0 then 0.0 else fall / from * 100.0
  }

  ghost predicate NoFallBeyond(initial: real, trades: seq<Trade>, fall: real) {
    forall i, j :: 0 <= i <= j <= |trades| ==> Equity(initial, trades, i) - Equity(initial, trades, j) <= fall
  }

  ghost predicate FallsBy(initial: real, trades: seq<Trade>, fall: real, pct: real, i: nat, j: nat) {
    && i <= j <= |trades|
    && Equity(initial, trades, i) - Equity(initial, trades, j) == fall
    && Equity(initial, trades, i) > 0.0 && pct == FallPct(fall, Equity(initial, trades, i))
  }

  /** The largest fall from an earlier point of the curve to a later one, and its percentage of that earlier point. */
  ghost predicate IsMaxDrawdown(initial: real, trades: seq<Trade>, fall: real, pct: real) {
    NoFallBeyond(initial, trades, fall) && exists i, j :: FallsBy(initial, trades, fall, pct, i, j)
  }

  lemma {:induction false} CurveSnoc(initial: real, trades: seq<Trade>, t: Trade)
    ensures forall i :: 0 <= i <= |trades| ==> Equity(initial, trades + [t], i) == Equity(initial, trades, i)
    ensures Equity(initial, trades + [t], |trades| + 1) == Equity(initial, trades, |trades|) + t.netPnl
  {
    hide Equity;
    forall i | 0 <= i <= |trades| ensures Equity(initial, trades + [t], i) == Equity(initial, trades, i) {
      EquitySnoc(initial, trades, t, i);
    }
    EquitySnoc(initial, trades, t, |trades|);
  }

  lemma {:induction false} PeakSnoc(initial: real, trades: seq<Trade>, t: Trade, peak: real)
    requires IsPeak(initial, trades, peak)
    ensures IsPeak(initial, trades + [t], Max(peak, Equity(initial, trades, |trades|) + t.netPnl))
  {
    hide Equity;
    CurveSnoc(initial, trades, t);
    var i :| 0 <= i <= |trades| && Equity(initial, trades, i) == peak;
    assert Equity(initial, trades + [t], i) == peak;
    assert Equity(initial, trades + [t], |trades + [t]|) == Equity(initial, trades, |trades|) + t.netPnl;
  }

  lemma {:induction false} NoFallSnoc(initial: real, trades: seq<Trade>, t: Trade, peak: real, fall: real)
    requires IsPeak(initial, trades, peak) && NoFallBeyond(initial, trades, fall)
    ensures var equity := Equity(initial, trades, |trades|) + t.netPnl;
            NoFallBeyond(initial, trades + [t], Max(fall, Max(peak, equity) - equity))
  {
    hide Equity;
    CurveSnoc(initial, trades, t);
    var all, n := trades + [t], |trades| + 1;
    var equity := Equity(initial, trades, |trades|) + t.netPnl;
    forall i, j | 0 <= i <= j <= |all|
      ensures Equity(initial, all, i) - Equity(initial, all, j) <= Max(fall, Max(peak, equity) - equity)
    {
      if j < n {
        assert Equity(initial, trades, i) - Equity(initial, trades, j) <= fall;
      } else if i < n {
        assert Equity(initial, trades, i) <= peak;
      }
    }
  }

  lemma {:induction false} FallSnoc(initial: real, trades: seq<Trade>, t: Trade, fall: real, pct: real, i: nat, j: nat)
    requires FallsBy(initial, trades, fall, pct, i, j)
    ensures FallsBy(initial, trades + [t], fall, pct, i, j)
  {
    hide Equity, FallPct;
    CurveSnoc(initial, trades, t);
  }

  lemma {:induction false} NewFall(initial: real, trades: seq<Trade>, t: Trade, top: real) returns (i: nat)
    requires IsPeak(initial, trades + [t], top) && top > 0.0
    ensures var equity := Equity(initial, trades, |trades|) + t.netPnl;
            FallsBy(initial, trades + [t], top - equity, FallPct(top - equity, top), i, |trades| + 1)
  {
    hide Equity, FallPct;
    CurveSnoc(initial, trades, t);
    i :| 0 <= i <= |trades + [t]| && Equity(initial, trades + [t], i) == top;
  }

  lemma {:induction false} DrawdownSnoc(initial: real, trades: seq<Trade>, t: Trade, peak: real, fall: real, pct: real)
    requires IsPeak(initial, trades, peak) && initial > 0.0 && IsMaxDrawdown(initial, trades, fall, pct)
    ensures var equity := Equity(initial, trades, |trades|) + t.netPnl;
            var top := Max(peak, equity);
            if top - equity > fall then IsMaxDrawdown(initial, trades + [t], top - equity, FallPct(top - equity, top))
            else IsMaxDrawdown(initial, trades + [t], fall, pct)
  {
    hide Equity, FallPct, FallsBy, NoFallBeyond, IsPeak;
    NoFallSnoc(initial, trades, t, peak, fall);
    PeakSnoc(initial, trades, t, peak);
    PeakPositive(initial, trades, peak);
    var equity := Equity(initial, trades, |trades|) + t.netPnl;
    if Max(peak, equity) - equity > fall {
      var i := NewFall(initial, trades, t, Max(peak, equity));
    } else {
      var i, j :| FallsBy(initial, trades, fall, pct, i, j);
      FallSnoc(initial, trades, t, fall, pct, i, j);
    }
  }

  lemma {:induction false} PeakPositive(initial: real, trades: seq<Trade>, peak: real)
    requires IsPeak(initial, trades, peak) && initial > 0.0
    ensures peak > 0.0
  {
    EquityStart(initial, trades);
    assert Equity(initial, trades, 0) <= peak;
  }

  lemma {:induction false} EquityStart(initial: real, trades: seq<Trade>)
    ensures Equity(initial, trades, 0) == initial
  {
  }

  // ----- profits, losses and streaks -----

  /** Totals over the first n trades of one sign: count and absolute sum. */
  function Wins(trades: seq<Trade>): (r: (nat, real))
    ensures r.1 >= 0.0
  {
    if trades == [] then (0, 0.0)
    else
      var w, t := Wins(trades[..|trades| - 1]), trades[|trades| - 1];
      if t.netPnl > 0.0 then (w.0 + 1, w.1 + t.netPnl) else w
  }

  function Losses(trades: seq<Trade>): (r: (nat, real))
    ensures r.1 >= 0.0
  {
    if trades == [] then (0, 0.0)
    else
      var l, t := Losses(trades[..|trades| - 1]), trades[|trades| - 1];
      if t.netPnl < 0.0 then (l.0 + 1, l.1 + -t.netPnl) else l
  }

  /** Equity moves by exactly the profits less the losses. */
  lemma {:induction false} EquityIsProfitLessLoss(initial: real, trades: seq<Trade>)
    ensures Equity(initial, trades, |trades|) == initial + Wins(trades).1 - Losses(trades).1
    ensures Wins(trades).0 + Losses(trades).0 <= |trades|
    decreases |trades|
  {
    if trades != [] {
      var rest := trades[..|trades| - 1];
      EquityIsProfitLessLoss(initial, rest);
      EquitySnoc(initial, rest, trades[|trades| - 1], |rest|);
      assert rest + [trades[|trades| - 1]] == trades;
    }
  }

  predicate NoWin(trades: seq<Trade>) {
    forall i :: 0 <= i < |trades| ==> trades[i].netPnl <= 0.0
  }

  /** Losses since the last win; a flat trade neither adds nor resets. */
  function LosingStreak(trades: seq<Trade>): nat {
    if trades == [] then 0
    else
      var t := trades[|trades| - 1];
      if t.netPnl > 0.0 then 0
      else LosingStreak(trades[..|trades| - 1]) + if t.netPnl < 0.0 then 1 else 0
  }

  /** The most losses in any stretch of trades without a win. */
  ghost predicate IsLongestStreak(trades: seq<Trade>, most: nat) {
    && (forall i, j :: 0 <= i <= j <= |trades| && NoWin(trades[i..j]) ==> Losses(trades[i..j]).0 <= most)
    && exists i, j :: 0 <= i <= j <= |trades| && NoWin(trades[i..j]) && Losses(trades[i..j]).0 == most
  }

  /** i is where the longest win-free tail starts. */
  ghost predicate StartsTail(trades: seq<Trade>, i: nat) {
    && i <= |trades| && NoWin(trades[i..])
    && forall k :: 0 <= k <= |trades| && NoWin(trades[k..]) ==> i <= k
  }

  /** The streak counts the losses of the longest win-free tail. */
  lemma {:induction false} StreakIsWinFreeTail(trades: seq<Trade>) returns (i: nat)
    ensures StartsTail(trades, i) && Losses(trades[i..]).0 == LosingStreak(trades)
    decreases |trades|
  {
    hide NoWin, StartsTail;
    if trades == [] {
      i := 0;
      assert StartsTail(trades, 0) && trades[0..] == [] by { EmptyTail(trades); }
    } else if trades[|trades| - 1].netPnl > 0.0 {
      i := |trades|;
      TailAfterWin(trades);
    } else {
      var rest := trades[..|trades| - 1];
      i := StreakIsWinFreeTail(rest);
      TailExtends(trades, i);
    }
  }

  lemma {:induction false} EmptyTail(trades: seq<Trade>)
    requires trades == []
    ensures StartsTail(trades, 0) && trades[0..] == []
  {
  }

  lemma {:induction false} TailAfterWin(trades: seq<Trade>)
    requires trades != [] && trades[|trades| - 1].netPnl > 0.0
    ensures StartsTail(trades, |trades|) && trades[|trades|..] == []
  {
  }

  lemma {:induction false} EmptyNoWin(trades: seq<Trade>)
    requires trades == []
    ensures NoWin(trades)
  {
  }

  lemma {:induction false} TailExtends(trades: seq<Trade>, i: nat)
    requires trades != [] && trades[|trades| - 1].netPnl <= 0.0 && StartsTail(trades[..|trades| - 1], i)
    ensures StartsTail(trades, i) && trades[i..][..|trades[i..]| - 1] == trades[..|trades| - 1][i..]
    ensures trades[i..] != [] && trades[i..][|trades[i..]| - 1] == trades[|trades| - 1]
  {
    var rest, last := trades[..|trades| - 1], trades[|trades| - 1];
    assert trades[i..] == rest[i..] + [last];
    hide NoWin;
    assert NoWin(trades[i..]) by { NoWinSnoc(rest[i..], last); }
    forall k | 0 <= k < |trades| && NoWin(trades[k..]) ensures i <= k {
      TailPrefix(trades, k);
    }
  }

  lemma {:induction false} NoWinSnoc(trades: seq<Trade>, last: Trade)
    requires NoWin(trades) && last.netPnl <= 0.0
    ensures NoWin(trades + [last])
  {
  }

  lemma {:induction false} TailPrefix(trades: seq<Trade>, k: nat)
    requires k < |trades| && NoWin(trades[k..])
    ensures NoWin(trades[..|trades| - 1][k..])
  {
  }

  lemma {:induction false} LossesMonotone(trades: seq<Trade>, k: nat)
    requires k <= |trades|
    ensures Losses(trades[k..]).0 <= Losses(trades).0
    decreases |trades|
  {
    if k == |trades| {
    } else {
      var rest := trades[..|trades| - 1];
      LossesMonotone(rest, k);
      assert trades[k..][..|trades[k..]| - 1] == rest[k..];
    }
  }

  lemma {:induction false} StreakSnoc(trades: seq<Trade>, t: Trade, most: nat)
    requires IsLongestStreak(trades, most)
    ensures var streak := LosingStreak(trades + [t]);
            && IsLongestStreak(trades + [t], if streak > most then streak else most)
            && (t.netPnl > 0.0 ==> streak == 0)
            && (t.netPnl <= 0.0 ==> streak == LosingStreak(trades) + if t.netPnl < 0.0 then 1 else 0)
            && (t.netPnl >= 0.0 ==> streak <= most)
  {
    var all := trades + [t];
    assert all[..|all| - 1] == trades;
    var streak := LosingStreak(all);
    var tail := StreakIsWinFreeTail(all);
    var before := StreakIsWinFreeTail(trades);
    assert trades[before..|trades|] == trades[before..];
    var longest := if streak > most then streak else most;
    hide LosingStreak, Losses, NoWin;
    forall i, j | 0 <= i <= j <= |all| && NoWin(all[i..j]) ensures Losses(all[i..j]).0 <= longest {
      if j < |all| {
        assert all[i..j] == trades[i..j];
      } else {
        assert all[i..j] == all[i..];
        assert all[i..] == all[tail..][i - tail..];
        LossesMonotone(all[tail..], i - tail);
      }
    }
    if streak > most {
      assert all[tail..|all|] == all[tail..];
    } else {
      var i, j :| 0 <= i <= j <= |trades| && NoWin(trades[i..j]) && Losses(trades[i..j]).0 == most;
      assert all[i..j] == trades[i..j];
    }
  }

  // ----- totals -----

  function CountReason(trades: seq<Trade>, reason: Reason): nat {
    if trades == [] then 0
    else CountReason(trades[..|trades| - 1], reason) + if trades[|trades| - 1].reason == reason then 1 else 0
  }

  datatype Excursions = Excursions(holding: int, mfe: real, mae: real, giveback: real, losingMfe: real)

  function Totals(trades: seq<Trade>): Excursions {
    if trades == [] then Excursions(0, 0.0, 0.0, 0.0, 0.0)
    else
      var e, t := Totals(trades[..|trades| - 1]), trades[|trades| - 1];
      Excursions(e.holding + (t.exitTime - t.entryTime), e.mfe + t.mfe, e.mae + t.mae, e.giveback + t.giveback,
                 if t.netPnl < 0.0 then e.losingMfe + t.mfe else e.losingMfe)
  }

  /** Which bucket a losing trade is filed under; an ambiguous stop is filed nowhere. */
  datatype LossKind = Timeout | NoProfit | SmallProfit | Giveback | Unfiled

  function LossKindOf(c: Config, t: Trade): LossKind {
    if t.reason == MaxHolding then Timeout
    else if t.reason == AmbiguousStop then Unfiled
    else if t.mfe < c.breakEvenFloorBps then NoProfit
    else if t.mfe < c.breakEvenTriggerBps then SmallProfit
    else Giveback
  }

  function CountLosses(c: Config, trades: seq<Trade>, kind: LossKind): nat {
    if trades == [] then 0
    else
      var t := trades[|trades| - 1];
      CountLosses(c, trades[..|trades| - 1], kind) + if t.netPnl < 0.0 && LossKindOf(c, t) == kind then 1 else 0
  }

  /** Every losing trade is filed under exactly one kind. */
  lemma {:induction false} LossKindsPartition(c: Config, trades: seq<Trade>)
    ensures CountLosses(c, trades, Timeout) + CountLosses(c, trades, NoProfit) + CountLosses(c, trades, SmallProfit)
          + CountLosses(c, trades, Giveback) + CountLosses(c, trades, Unfiled) == Losses(trades).0
    decreases |trades|
  {
    hide LossKindOf;
    if trades != [] {
      LossKindsPartition(c, trades[..|trades| - 1]);
    }
  }

  // ----- what the figures of a trade and of the books say -----

  /** The stop by the best gain so far: the initial one, then the floor, then whatever is higher of the floor and the gain less the drawdown. */
  lemma {:induction false} StopLevels(c: Config, peak: real)
    requires ValidConfig(c)
    ensures peak < c.breakEvenTriggerBps ==> StopFor(c, peak) == -c.initialStopBps
    ensures c.breakEvenTriggerBps <= peak < c.trailingTriggerBps ==> StopFor(c, peak) == c.breakEvenFloorBps
    ensures peak >= c.trailingTriggerBps ==>
              && StopFor(c, peak) >= c.breakEvenFloorBps && StopFor(c, peak) >= peak - c.trailingDrawdownBps
              && (StopFor(c, peak) == c.breakEvenFloorBps || StopFor(c, peak) == peak - c.trailingDrawdownBps)
  {
  }

  /** Net result and cost: the notional times the gross return, and times the fees and slippage of both ways. */
  lemma {:induction false} NetIsGrossLessCost(c: Config, grossBps: real)
    ensures 10000.0 * (NetPnl(c, grossBps) + Cost(c)) == c.marginQuote * c.leverage * grossBps
    ensures 10000.0 * Cost(c) == c.marginQuote * c.leverage * (20000.0 * c.feeRate + 2.0 * c.slippageBps)
    ensures ValidConfig(c) ==> Cost(c) >= 0.0
  {
    hide Notional;
    var notional, cost := c.marginQuote * c.leverage, CostBps(c);
    assert Notional(c) == notional by { NotionalIs(c); }
    assert notional * grossBps / 10000.0 * 10000.0 == notional * grossBps;
    assert notional * cost / 10000.0 * 10000.0 == notional * cost;
    if ValidConfig(c) {
      assert notional > 0.0 && cost >= 0.0;
      assert notional * cost >= 0.0;
    }
  }

  lemma {:induction false} NotionalIs(c: Config)
    ensures Notional(c) == c.marginQuote * c.leverage
  {
  }

  /** What the label of a stop says about where the stop stood. */
  lemma {:induction false} LabelSaysWhere(c: Config, stop: real, favorable: real)
    requires ValidConfig(c)
    ensures var named, trailing := StopLabel(c, stop, favorable), c.trailingTriggerBps - c.trailingDrawdownBps;
            && (named == TrailingStop <==> stop >= trailing)
            && (named == BreakEven <==> c.breakEvenFloorBps <= stop < trailing)
            && (named == AmbiguousStop <==> stop < trailing && stop < c.breakEvenFloorBps && favorable >= c.breakEvenTriggerBps)
            && (named == InitialStop <==> stop < trailing && stop < c.breakEvenFloorBps && favorable < c.breakEvenTriggerBps)
  {
  }

  lemma {:induction false} ReasonTexts(text: string)
    ensures ReasonOf("initial_stop") == InitialStop && ReasonOf("break_even") == BreakEven && ReasonOf("trailing_stop") == TrailingStop
    ensures ReasonOf("same_bar_ambiguous_stop") == AmbiguousStop && ReasonOf("max_holding") == MaxHolding && ReasonOf("dataset_end") == DatasetEnd
    ensures text !in {"initial_stop", "break_even", "trailing_stop", "same_bar_ambiguous_stop", "max_holding", "dataset_end"}
            <==> ReasonOf(text) == Market(text)
  {
  }

  /** A losing trade is filed by how far it had been in profit, unless it ran out of time or its stop was ambiguous. */
  lemma {:induction false} LossKindByProfit(c: Config, t: Trade)
    requires ValidConfig(c)
    ensures var kind, sorted := LossKindOf(c, t), t.reason != MaxHolding && t.reason != AmbiguousStop;
            && (kind == Timeout <==> t.reason == MaxHolding) && (kind == Unfiled <==> t.reason == AmbiguousStop)
            && (kind == NoProfit <==> sorted && t.mfe < c.breakEvenFloorBps)
            && (kind == SmallProfit <==> sorted && c.breakEvenFloorBps <= t.mfe < c.breakEvenTriggerBps)
            && (kind == Giveback <==> sorted && t.mfe >= c.breakEvenTriggerBps)
  {
  }

  lemma {:induction false} FallPctOfPeak(fall: real, from: real)
    ensures if from == 0.0 then FallPct(fall, from) == 0.0 else FallPct(fall, from) * from == 100.0 * fall
  {
    if from != 0.0 {
      assert fall / from * from == fall;
    }
  }

  /** The winning trades are those with a positive net result. */
  lemma {:induction false} WinsAreCounted(trades: seq<Trade>)
    ensures Wins(trades).0 == |set i | 0 <= i < |trades| && trades[i].netPnl > 0.0|
    decreases |trades|
  {
    if trades != [] {
      var n := |trades| - 1;
      var rest := trades[..n];
      WinsAreCounted(rest);
      var before := set i | 0 <= i < n && rest[i].netPnl > 0.0;
      assert (set i | 0 <= i < |trades| && trades[i].netPnl > 0.0) == if trades[n].netPnl > 0.0 then before + {n} else before;
    }
  }

  lemma {:induction false} LossesAreCounted(trades: seq<Trade>)
    ensures Losses(trades).0 == |set i | 0 <= i < |trades| && trades[i].netPnl < 0.0|
    decreases |trades|
  {
    if trades != [] {
      var n := |trades| - 1;
      var rest := trades[..n];
      LossesAreCounted(rest);
      var before := set i | 0 <= i < n && rest[i].netPnl < 0.0;
      assert (set i | 0 <= i < |trades| && trades[i].netPnl < 0.0) == if trades[n].netPnl < 0.0 then before + {n} else before;
    }
  }

  /** Gross profit and gross loss add up the positive and the negative net results. */
  lemma {:induction false} ProfitsAreAdded(trades: seq<Trade>)
    ensures Wins(trades).1 == RangeSum(seq(|trades|, i requires 0 <= i < |trades| => Max(trades[i].netPnl, 0.0)), 0, |trades|)
    decreases |trades|
  {
    if trades != [] {
      var n := |trades| - 1;
      var rest := trades[..n];
      ProfitsAreAdded(rest);
      RangeSumSame(seq(|trades|, i requires 0 <= i < |trades| => Max(trades[i].netPnl, 0.0)), seq(n, i requires 0 <= i < n => Max(rest[i].netPnl, 0.0)), 0, n);
    }
  }

  lemma {:induction false} LossesAreAdded(trades: seq<Trade>)
    ensures Losses(trades).1 == RangeSum(seq(|trades|, i requires 0 <= i < |trades| => Max(-trades[i].netPnl, 0.0)), 0, |trades|)
    decreases |trades|
  {
    if trades != [] {
      var n := |trades| - 1;
      var rest := trades[..n];
      LossesAreAdded(rest);
      RangeSumSame(seq(|trades|, i requires 0 <= i < |trades| => Max(-trades[i].netPnl, 0.0)),
                   seq(n, i requires 0 <= i < n => Max(-rest[i].netPnl, 0.0)), 0, n);
    }
  }

  /** The trades an exit counter counts: those with that reason. */
  ghost function WithReason(trades: seq<Trade>, reason: Reason): set<int> {
    set i | 0 <= i < |trades| && trades[i].reason == reason
  }

  lemma {:induction false} OneWithReason(trades: seq<Trade>, reason: Reason)
    requires trades != []
    ensures var n := |trades| - 1; |WithReason(trades, reason)| == |WithReason(trades[..|trades| - 1], reason)| + if trades[n].reason == reason then 1 else 0
  {
    var n := |trades| - 1;
    var before := WithReason(trades[..|trades| - 1], reason);
    assert WithReason(trades, reason) == if trades[n].reason == reason then before + {n} else before;
  }

  lemma {:induction false} ReasonsAreCounted(trades: seq<Trade>, reason: Reason)
    ensures CountReason(trades, reason) == |WithReason(trades, reason)|
    decreases |trades|
  {
    hide WithReason;
    if trades != [] {
      ReasonsAreCounted(trades[..|trades| - 1], reason);
      OneWithReason(trades, reason);
    } else {
      NoneWithReason(trades, reason);
    }
  }

  lemma {:induction false} NoneWithReason(trades: seq<Trade>, reason: Reason)
    requires trades == []
    ensures WithReason(trades, reason) == {}
  {
  }

  /** The trades a loss counter counts: the losing ones of that kind. */
  ghost function LostBy(c: Config, trades: seq<Trade>, kind: LossKind): set<int> {
    set i | 0 <= i < |trades| && trades[i].netPnl < 0.0 && LossKindOf(c, trades[i]) == kind
  }

  lemma {:induction false} OneLostBy(c: Config, trades: seq<Trade>, kind: LossKind)
    requires trades != []
    ensures var n := |trades| - 1;
            |LostBy(c, trades, kind)| == |LostBy(c, trades[..|trades| - 1], kind)| + if trades[n].netPnl < 0.0 && LossKindOf(c, trades[n]) == kind then 1 else 0
  {
    hide LossKindOf;
    var n := |trades| - 1;
    var before := LostBy(c, trades[..|trades| - 1], kind);
    assert LostBy(c, trades, kind) == if trades[n].netPnl < 0.0 && LossKindOf(c, trades[n]) == kind then before + {n} else before;
  }

  lemma {:induction false} LossKindsAreCounted(c: Config, trades: seq<Trade>, kind: LossKind)
    ensures CountLosses(c, trades, kind) == |LostBy(c, trades, kind)|
    decreases |trades|
  {
    hide LostBy, LossKindOf;
    if trades != [] {
      LossKindsAreCounted(c, trades[..|trades| - 1], kind);
      OneLostBy(c, trades, kind);
    } else {
      NoneLostBy(c, trades, kind);
    }
  }

  lemma {:induction false} NoneLostBy(c: Config, trades: seq<Trade>, kind: LossKind)
    requires trades == []
    ensures LostBy(c, trades, kind) == {}
  {
  }

  /** The running totals are the sums of the trades' own figures, those of the losing ones apart. */
  lemma {:induction false} TotalsAreSums(trades: seq<Trade>)
    ensures var n, e := |trades|, Totals(trades);
            && e.mfe == RangeSum(seq(n, i requires 0 <= i < n => trades[i].mfe), 0, n)
            && e.mae == RangeSum(seq(n, i requires 0 <= i < n => trades[i].mae), 0, n)
            && e.giveback == RangeSum(seq(n, i requires 0 <= i < n => trades[i].giveback), 0, n)
            && e.losingMfe == RangeSum(seq(n, i requires 0 <= i < n => if trades[i].netPnl < 0.0 then trades[i].mfe else 0.0), 0, n)
            && e.holding as real == RangeSum(seq(n, i requires 0 <= i < n => (trades[i].exitTime - trades[i].entryTime) as real), 0, n)
    decreases |trades|
  {
    if trades != [] {
      var n, k := |trades|, |trades| - 1;
      var rest := trades[..k];
      TotalsAreSums(rest);
      RangeSumSame(seq(n, i requires 0 <= i < n => trades[i].mfe), seq(k, i requires 0 <= i < k => rest[i].mfe), 0, k);
      RangeSumSame(seq(n, i requires 0 <= i < n => trades[i].mae), seq(k, i requires 0 <= i < k => rest[i].mae), 0, k);
      RangeSumSame(seq(n, i requires 0 <= i < n => trades[i].giveback), seq(k, i requires 0 <= i < k => rest[i].giveback), 0, k);
      RangeSumSame(seq(n, i requires 0 <= i < n => if trades[i].netPnl < 0.0 then trades[i].mfe else 0.0),
                   seq(k, i requires 0 <= i < k => if rest[i].netPnl < 0.0 then rest[i].mfe else 0.0), 0, k);
      RangeSumSame(seq(n, i requires 0 <= i < n => (trades[i].exitTime - trades[i].entryTime) as real),
                   seq(k, i requires 0 <= i < k => (rest[i].exitTime - rest[i].entryTime) as real), 0, k);
    }
  }
}
