/**
 * The single-position replay: at most one open position, a stop that only the bars before
 * can move, a cooldown after every exit, and running totals.  The event log is what the
 * whole-run properties are about.
 */
module SinglePosition {
  import opened Excursion
  import opened Numeric
  import opened SinglePositionBooks

  /** A parsed bar: None where the text is not a number. */
  datatype Kline = Kline(high: Option<real>, low: Option<real>, close: Option<real>, closeTime: int)

  datatype Range = Range(high: real, low: real)

  datatype Position = Position(side: Side, entryPrice: real, entryTime: int, stopBps: real, peakFavorable: real, maxAdverse: real)

  datatype Regime = Regime(allowLong: bool, allowShort: bool, reasons: seq<string>)

  datatype Execution = Execution(hasPrice: bool, lastPrice: Option<real>, time: int)

  datatype Snapshot = Snapshot(close: Option<real>, closeTime: int, backtest: bool, execution: Option<Execution>)

  datatype Summary = Summary(
    trades: nat, winningTrades: nat, losingTrades: nat, netPnl: real, grossProfit: real, grossLoss: real,
    maxDrawdown: real, maxDrawdownPct: real, maxConsecutiveLosses: nat, tradingCost: real,
    skippedNoRegime: nat, skippedByRegime: nat, regimeSkipReasons: map<string, nat>,
    skippedWhileOpen: nat, skippedCooldown: nat, skippedConflict: nat,
    initialStopExits: nat, breakEvenExits: nat, trailingStopExits: nat, maxHoldingExits: nat, datasetEndExits: nat, ambiguousStopExits: nat,
    lossNoProfit: nat, lossSmallProfit: nat, lossGiveback: nat, lossTimeout: nat)

  const EMPTY_SUMMARY := Summary(0, 0, 0, 0.0, 0.0, 0.0, 0.0, 0.0, 0, 0.0, 0, 0, map[], 0, 0, 0, 0, 0, 0, 0, 0, 0, 0, 0, 0, 0)

  // ----- the run as a log of events -----

  datatype SkipKind = NoRegime | ByRegime | WhileOpen | Cooldown | Conflict

  /** Bar: an accepted bar.  Refused: an entry attempt that fails without being counted as skipped. */
  datatype Event = Bar | Exit | Enter | Skip(kind: SkipKind) | Refused

  function Count(log: seq<Event>, e: Event): nat {
    if log == [] then 0 else Count(log[..|log| - 1], e) + if log[|log| - 1] == e then 1 else 0
  }

  lemma {:induction false} CountSnoc(log: seq<Event>, next: Event, e: Event)
    ensures Count(log + [next], e) == Count(log, e) + if next == e then 1 else 0
  {
  }

  /** Accepted bars since the last exit. */
  function BarsSinceExit(log: seq<Event>): Option<nat> {
    if log == [] then None
    else
      var before := BarsSinceExit(log[..|log| - 1]);
      match log[|log| - 1]
      case Exit => Some(0)
      case Bar => (match before case None => None case Some(k) => Some(k + 1))
      case _ => before
  }

  function CooldownLeft(log: seq<Event>, cooldown: nat): nat {
    match BarsSinceExit(log)
    case None => 0
    case Some(k) => if k < cooldown then cooldown - k else 0
  }

  lemma {:induction false} CooldownSnoc(log: seq<Event>, next: Event, cooldown: nat)
    ensures CooldownLeft(log + [next], cooldown)
         == if next == Exit then cooldown
            else if next == Bar && CooldownLeft(log, cooldown) > 0 then CooldownLeft(log, cooldown) - 1
            else CooldownLeft(log, cooldown)
  {
  }

  /** Every entry happened with no cooldown left. */
  ghost predicate Patient(log: seq<Event>, cooldown: nat) {
    forall k :: 0 <= k < |log| && log[k] == Enter ==> CooldownLeft(log[..k], cooldown) == 0
  }

  lemma {:induction false} PatientSnoc(log: seq<Event>, next: Event, cooldown: nat)
    requires Patient(log, cooldown) && (next == Enter ==> CooldownLeft(log, cooldown) == 0)
    ensures Patient(log + [next], cooldown)
  {
    hide CooldownLeft;
    forall k | 0 <= k < |log + [next]| && (log + [next])[k] == Enter ensures CooldownLeft((log + [next])[..k], cooldown) == 0 {
      assert (log + [next])[..k] == log[..k];
      assert log[..|log|] == log;
    }
  }

  lemma {:induction false} BarsSinceSomeExit(log: seq<Event>, i: nat)
    requires i < |log| && log[i] == Exit
    ensures BarsSinceExit(log).Some? && BarsSinceExit(log).value <= Count(log[i + 1..], Bar)
    decreases |log|
  {
    if i < |log| - 1 {
      BarsSinceSomeExit(log[..|log| - 1], i);
      assert log[i + 1..][..|log[i + 1..]| - 1] == log[..|log| - 1][i + 1..];
    }
  }

  /** In any run, at least the configured number of accepted bars lies between an exit and any later entry. */
  lemma {:induction false} EntriesWaitOutTheCooldown(log: seq<Event>, cooldown: nat, i: nat, j: nat)
    requires Patient(log, cooldown) && i < j < |log| && log[i] == Exit && log[j] == Enter
    ensures Count(log[i + 1..j], Bar) >= cooldown
  {
    BarsSinceSomeExit(log[..j], i);
    assert log[..j][i + 1..] == log[i + 1..j];
    assert CooldownLeft(log[..j], cooldown) == 0;
  }

  // ----- an open position against one bar -----

  function PeakFavorable(side: Side, entry: real, path: seq<Range>): real
    requires entry > 0.0
  {
    if path == [] then 0.0
    else Max(PeakFavorable(side, entry, path[..|path| - 1]), Favorable(side, entry, path[|path| - 1].high, path[|path| - 1].low))
  }

  function PeakAdverse(side: Side, entry: real, path: seq<Range>): real
    requires entry > 0.0
  {
    if path == [] then 0.0
    else Max(PeakAdverse(side, entry, path[..|path| - 1]), Adverse(side, entry, path[|path| - 1].high, path[|path| - 1].low))
  }

  lemma {:induction false} PathSnoc(side: Side, entry: real, path: seq<Range>, bar: Range)
    requires entry > 0.0
    ensures PeakFavorable(side, entry, path + [bar]) == Max(PeakFavorable(side, entry, path), Favorable(side, entry, bar.high, bar.low))
    ensures PeakAdverse(side, entry, path + [bar]) == Max(PeakAdverse(side, entry, path), Adverse(side, entry, bar.high, bar.low))
  {
  }

  function HoldingLimit(c: Config): int {
    c.maxHoldingNs / 1000000
  }

  /** How a bar closes an open position, given only the bars before it: gross return and label. */
  function ExitOf(c: Config, p: Position, path: seq<Range>, bar: Range, close: real, time: int): Option<(real, Reason)>
    requires p.entryPrice > 0.0
  {
    var stop := StopFor(c, PeakFavorable(p.side, p.entryPrice, path));
    if WorstGross(p.side, p.entryPrice, bar.high, bar.low) <= stop then
      Some((stop, StopLabel(c, stop, Favorable(p.side, p.entryPrice, bar.high, bar.low))))
    else if time - p.entryTime >= HoldingLimit(c) then Some((DirectionalReturn(p.side, p.entryPrice, close), MaxHolding))
    else None
  }

  lemma {:induction false} PeakNonNegative(side: Side, entry: real, path: seq<Range>)
    requires entry > 0.0
    ensures PeakFavorable(side, entry, path) >= 0.0
  {
  }

  /**
   * A bar with low <= close <= high never closes a position at a gross loss beyond the
   * initial stop, and when the configuration keeps the levels apart the label of a stop is
   * the protection the earlier bars reached.
   */
  lemma {:induction false} ExitLossIsBounded(c: Config, p: Position, path: seq<Range>, bar: Range, close: real, time: int)
    requires ValidConfig(c) && p.entryPrice > 0.0 && !p.side.Other? && bar.low <= close <= bar.high
    requires ExitOf(c, p, path, bar, close, time).Some?
    ensures var (gross, reason) := ExitOf(c, p, path, bar, close, time).value;
            var peak, favorable := PeakFavorable(p.side, p.entryPrice, path), Favorable(p.side, p.entryPrice, bar.high, bar.low);
            && gross >= -c.initialStopBps
            && NetPnl(c, gross) >= -(Notional(c) * (c.initialStopBps + CostBps(c)) / 10000.0)
            && (LabelsDistinguish(c) && reason != MaxHolding ==> reason == ProtectionReached(c, peak, favorable))
  {
    hide WorstGross, DirectionalReturn, NetPnl, Notional, CostBps, StopLabel, ProtectionReached, LabelsDistinguish, StopFor,
         Favorable, HoldingLimit;
    var peak := PeakFavorable(p.side, p.entryPrice, path);
    StopOnlyTightens(c, peak, peak);
    CloseBeatsWorst(p.side, p.entryPrice, bar.high, bar.low, close);
    NetLossBound(c, ExitOf(c, p, path, bar, close, time).value.0);
    PeakNonNegative(p.side, p.entryPrice, path);
    LabelsAreHonest(c);
  }

  // ----- the books -----

  ghost predicate CurveOk(c: Config, trades: seq<Trade>, equity: real, peakEquity: real, fall: real, pct: real) {
    && equity == Equity(c.initialEquity, trades, |trades|)
    && IsPeak(c.initialEquity, trades, peakEquity)
    && IsMaxDrawdown(c.initialEquity, trades, fall, pct)
  }

  ghost predicate StreakOk(trades: seq<Trade>, consecutiveLosses: nat, most: nat) {
    consecutiveLosses == LosingStreak(trades) && IsLongestStreak(trades, most)
  }

  ghost predicate ProfitOk(c: Config, trades: seq<Trade>, s: Summary) {
    && s.trades == |trades|
    && (s.winningTrades, s.grossProfit) == Wins(trades)
    && (s.losingTrades, s.grossLoss) == Losses(trades)
    && s.netPnl == s.grossProfit - s.grossLoss
    && s.tradingCost == |trades| as real * Cost(c)
  }

  ghost predicate ExitsOk(trades: seq<Trade>, s: Summary) {
    && s.initialStopExits == CountReason(trades, InitialStop) && s.breakEvenExits == CountReason(trades, BreakEven)
    && s.trailingStopExits == CountReason(trades, TrailingStop) && s.maxHoldingExits == CountReason(trades, MaxHolding)
    && s.datasetEndExits == CountReason(trades, DatasetEnd) && s.ambiguousStopExits == CountReason(trades, AmbiguousStop)
  }

  ghost predicate LossesOk(c: Config, trades: seq<Trade>, s: Summary) {
    && s.lossTimeout == CountLosses(c, trades, Timeout) && s.lossNoProfit == CountLosses(c, trades, NoProfit)
    && s.lossSmallProfit == CountLosses(c, trades, SmallProfit) && s.lossGiveback == CountLosses(c, trades, Giveback)
  }

  /** The summary, as a function of the trades alone. */
  ghost predicate BooksOk(c: Config, trades: seq<Trade>, equity: real, peakEquity: real, consecutiveLosses: nat,
        totals: Excursions, s: Summary) {
    && CurveOk(c, trades, equity, peakEquity, s.maxDrawdown, s.maxDrawdownPct) && StreakOk(trades, consecutiveLosses, s.maxConsecutiveLosses)
    && ProfitOk(c, trades, s) && ExitsOk(trades, s) && LossesOk(c, trades, s) && totals == Totals(trades)
  }

  /** The log and the rest of the state tell the same story. */
  ghost predicate LogOk(log: seq<Event>, cooldown: nat, left: int, open: bool, closed: nat, s: Summary) {
    && left == CooldownLeft(log, cooldown) && Patient(log, cooldown)
    && (open ==> left == 0)
    && closed == Count(log, Exit) && Count(log, Enter) == closed + (if open then 1 else 0)
    && s.skippedNoRegime == Count(log, Skip(NoRegime)) && s.skippedByRegime == Count(log, Skip(ByRegime))
    && s.skippedWhileOpen == Count(log, Skip(WhileOpen)) && s.skippedCooldown == Count(log, Skip(Cooldown))
    && s.skippedConflict == Count(log, Skip(Conflict))
  }

  predicate SameSkips(s: Summary, t: Summary) {
    && s.skippedNoRegime == t.skippedNoRegime && s.skippedByRegime == t.skippedByRegime && s.regimeSkipReasons == t.regimeSkipReasons
    && s.skippedWhileOpen == t.skippedWhileOpen && s.skippedCooldown == t.skippedCooldown && s.skippedConflict == t.skippedConflict
  }

  lemma {:induction false} LogSnoc(log: seq<Event>, next: Event, cooldown: nat)
    ensures forall e :: Count(log + [next], e) == Count(log, e) + if next == e then 1 else 0
    ensures CooldownLeft(log + [next], cooldown)
         == if next == Exit then cooldown
            else if next == Bar && CooldownLeft(log, cooldown) > 0 then CooldownLeft(log, cooldown) - 1
            else CooldownLeft(log, cooldown)
    ensures Patient(log, cooldown) && (next == Enter ==> CooldownLeft(log, cooldown) == 0) ==> Patient(log + [next], cooldown)
  {
    hide Count, CooldownLeft, Patient;
    forall e ensures Count(log + [next], e) == Count(log, e) + if next == e then 1 else 0 {
      CountSnoc(log, next, e);
    }
    CooldownSnoc(log, next, cooldown);
    if Patient(log, cooldown) && (next == Enter ==> CooldownLeft(log, cooldown) == 0) {
      PatientSnoc(log, next, cooldown);
    }
  }

  // ----- filing one trade, stage by stage -----

  method FileProfit(c: Config, ghost trades: seq<Trade>, t: Trade, tradingCost: real, s: Summary, consecutiveLosses: nat)
      returns (filed: Summary, streak: nat)
    requires ProfitOk(c, trades, s) && LossesOk(c, trades, s) && StreakOk(trades, consecutiveLosses, s.maxConsecutiveLosses)
         && tradingCost == Cost(c)
    ensures ProfitOk(c, trades + [t], filed) && LossesOk(c, trades + [t], filed) && StreakOk(trades + [t], streak, filed.maxConsecutiveLosses)
    ensures SameSkips(s, filed) && filed.maxDrawdown == s.maxDrawdown && filed.maxDrawdownPct == s.maxDrawdownPct
    ensures forall all :: ExitsOk(all, filed) == ExitsOk(all, s)
  {
    hide LosingStreak, IsLongestStreak, Cost, Wins, Losses, CountLosses, LossKindOf;
    StreakSnoc(trades, t, s.maxConsecutiveLosses);
    ProfitSnoc(c, trades, t);
    filed := s.(trades := s.trades + 1, netPnl := s.netPnl + t.netPnl, tradingCost := s.tradingCost + tradingCost);
    streak := consecutiveLosses;
    if t.netPnl > 0.0 {
      filed := filed.(winningTrades := filed.winningTrades + 1, grossProfit := filed.grossProfit + t.netPnl);
      streak := 0;
    } else if t.netPnl < 0.0 {
      streak := streak + 1;
      filed := filed.(losingTrades := filed.losingTrades + 1, grossLoss := filed.grossLoss + -t.netPnl,
                      maxConsecutiveLosses := if streak > filed.maxConsecutiveLosses then streak else filed.maxConsecutiveLosses);
      match LossKindOf(c, t)
      case Timeout => filed := filed.(lossTimeout := filed.lossTimeout + 1);
      case Unfiled =>
      case NoProfit => filed := filed.(lossNoProfit := filed.lossNoProfit + 1);
      case SmallProfit => filed := filed.(lossSmallProfit := filed.lossSmallProfit + 1);
      case Giveback => filed := filed.(lossGiveback := filed.lossGiveback + 1);
    }
  }

  lemma {:induction false} ProfitSnoc(c: Config, trades: seq<Trade>, t: Trade)
    ensures var w, l := Wins(trades), Losses(trades);
            && Wins(trades + [t]) == (if t.netPnl > 0.0 then (w.0 + 1, w.1 + t.netPnl) else w)
            && Losses(trades + [t]) == (if t.netPnl < 0.0 then (l.0 + 1, l.1 + -t.netPnl) else l)
    ensures forall kind ::
              CountLosses(c, trades + [t], kind)
              == CountLosses(c, trades, kind) + if t.netPnl < 0.0 && LossKindOf(c, t) == kind then 1 else 0
    ensures |trades + [t]| as real * Cost(c) == |trades| as real * Cost(c) + Cost(c)
  {
  }

  method FileExit(ghost trades: seq<Trade>, t: Trade, s: Summary) returns (filed: Summary)
    requires ExitsOk(trades, s)
    ensures ExitsOk(trades + [t], filed)
    ensures filed == s.(initialStopExits := filed.initialStopExits, breakEvenExits := filed.breakEvenExits,
                        trailingStopExits := filed.trailingStopExits, maxHoldingExits := filed.maxHoldingExits,
                        datasetEndExits := filed.datasetEndExits, ambiguousStopExits := filed.ambiguousStopExits)
  {
    hide CountReason;
    ReasonSnoc(trades, t);
    filed := s;
    match t.reason
    case InitialStop => filed := filed.(initialStopExits := filed.initialStopExits + 1);
    case BreakEven => filed := filed.(breakEvenExits := filed.breakEvenExits + 1);
    case TrailingStop => filed := filed.(trailingStopExits := filed.trailingStopExits + 1);
    case MaxHolding => filed := filed.(maxHoldingExits := filed.maxHoldingExits + 1);
    case DatasetEnd => filed := filed.(datasetEndExits := filed.datasetEndExits + 1);
    case AmbiguousStop => filed := filed.(ambiguousStopExits := filed.ambiguousStopExits + 1);
    case Market(_) =>
  }

  lemma {:induction false} ReasonSnoc(trades: seq<Trade>, t: Trade)
    ensures forall reason :: CountReason(trades + [t], reason) == CountReason(trades, reason) + if t.reason == reason then 1 else 0
  {
  }

  method MoveEquity(c: Config, ghost trades: seq<Trade>, t: Trade, equity: real, peakEquity: real, s: Summary)
      returns (newEquity: real, newPeak: real, filed: Summary)
    requires ValidConfig(c) && CurveOk(c, trades, equity, peakEquity, s.maxDrawdown, s.maxDrawdownPct)
    ensures CurveOk(c, trades + [t], newEquity, newPeak, filed.maxDrawdown, filed.maxDrawdownPct)
    ensures filed == s.(maxDrawdown := filed.maxDrawdown, maxDrawdownPct := filed.maxDrawdownPct)
  {
    hide Equity, IsPeak, IsMaxDrawdown, FallPct;
    EquitySnoc(c.initialEquity, trades, t, |trades|);
    PeakSnoc(c.initialEquity, trades, t, peakEquity);
    DrawdownSnoc(c.initialEquity, trades, t, peakEquity, s.maxDrawdown, s.maxDrawdownPct);
    filed := s;
    newEquity := equity + t.netPnl;
    newPeak := Max(peakEquity, newEquity);
    var drawdown := newPeak - newEquity;
    if drawdown > filed.maxDrawdown {
      filed := filed.(maxDrawdown := drawdown, maxDrawdownPct := FallPct(drawdown, newPeak));
    }
  }

  lemma {:induction false} TotalsSnoc(trades: seq<Trade>, t: Trade)
    ensures var e := Totals(trades);
            Totals(trades + [t])
            == Excursions(e.holding + (t.exitTime - t.entryTime), e.mfe + t.mfe, e.mae + t.mae, e.giveback + t.giveback,
                          if t.netPnl < 0.0 then e.losingMfe + t.mfe else e.losingMfe)
  {
  }

  /** The three stages of filing a trade add up to the books of the longer trade list. */
  lemma {:induction false} BooksFromStages(c: Config, all: seq<Trade>, equity: real, peakEquity: real, streak: nat,
        totals: Excursions, s1: Summary, s2: Summary, s3: Summary)
    requires ProfitOk(c, all, s1) && LossesOk(c, all, s1) && StreakOk(all, streak, s1.maxConsecutiveLosses) && ExitsOk(all, s2)
    requires s2 == s1.(initialStopExits := s2.initialStopExits, breakEvenExits := s2.breakEvenExits, trailingStopExits := s2.trailingStopExits,
                       maxHoldingExits := s2.maxHoldingExits, datasetEndExits := s2.datasetEndExits, ambiguousStopExits := s2.ambiguousStopExits)
    requires CurveOk(c, all, equity, peakEquity, s3.maxDrawdown, s3.maxDrawdownPct)
    requires s3 == s2.(maxDrawdown := s3.maxDrawdown, maxDrawdownPct := s3.maxDrawdownPct)
    requires totals == Totals(all)
    ensures BooksOk(c, all, equity, peakEquity, streak, totals, s3) && SameSkips(s1, s3)
  {
  }

  lemma {:induction false} EmptyBooks(c: Config)
    requires ValidConfig(c)
    ensures BooksOk(c, [], c.initialEquity, c.initialEquity, 0, Excursions(0, 0.0, 0.0, 0.0, 0.0), EMPTY_SUMMARY)
    ensures LogOk([], c.cooldownBars, 0, false, 0, EMPTY_SUMMARY)
  {
    hide CurveOk, StreakOk, Equity, Wins, Losses, Cost, CountReason, CountLosses, Totals, Count, CooldownLeft;
    EmptyCurve(c);
    EmptyStreak();
    EmptyCounts(c);
  }

  lemma {:induction false} EmptyCurve(c: Config)
    requires ValidConfig(c)
    ensures CurveOk(c, [], c.initialEquity, c.initialEquity, 0.0, 0.0)
  {
    hide Equity;
    EquityStart(c.initialEquity, []);
    assert FallsBy(c.initialEquity, [], 0.0, 0.0, 0, 0);
  }

  lemma {:induction false} EmptyStreak()
    ensures StreakOk([], 0, 0)
  {
    var none: seq<Trade> := [];
    assert none[0..0] == none;
    hide NoWin;
    EmptyNoWin(none);
    assert NoWin(none[0..0]) && Losses(none[0..0]).0 == 0;
  }

  lemma {:induction false} EmptyCounts(c: Config)
    ensures Wins([]) == (0, 0.0) && Losses([]) == (0, 0.0) && Totals([]) == Excursions(0, 0.0, 0.0, 0.0, 0.0)
    ensures (forall r :: CountReason([], r) == 0) && (forall k :: CountLosses(c, [], k) == 0) && (forall e :: Count([], e) == 0)
    ensures c.cooldownBars >= 0 ==> CooldownLeft([], c.cooldownBars) == 0
  {
  }

  lemma {:induction false} BarLogged(log: seq<Event>, cooldown: nat, left: int, open: bool, closed: nat, s: Summary)
    requires LogOk(log, cooldown, left, open, closed, s)
    ensures LogOk(log + [Bar], cooldown, if left > 0 then left - 1 else left, open, closed, s)
  {
    hide Count, CooldownLeft, Patient;
    LogSnoc(log, Bar, cooldown);
  }

  lemma {:induction false} ExitLogged(log: seq<Event>, cooldown: nat, left: int, closed: nat, s: Summary, filed: Summary)
    requires LogOk(log, cooldown, left, true, closed, s) && SameSkips(s, filed)
    ensures LogOk(log + [Exit], cooldown, cooldown, false, closed + 1, filed)
  {
    hide Count, CooldownLeft, Patient;
    LogSnoc(log, Exit, cooldown);
  }

  lemma {:induction false} EntryLogged(log: seq<Event>, cooldown: nat, left: int, closed: nat, s: Summary)
    requires LogOk(log, cooldown, left, false, closed, s) && left <= 0
    ensures LogOk(log + [Enter], cooldown, left, true, closed, s)
  {
    hide Count, Patient;
    LogSnoc(log, Enter, cooldown);
  }

  function Skipped(s: Summary, kind: SkipKind): Summary {
    match kind
    case NoRegime => s.(skippedNoRegime := s.skippedNoRegime + 1)
    case ByRegime => s.(skippedByRegime := s.skippedByRegime + 1)
    case WhileOpen => s.(skippedWhileOpen := s.skippedWhileOpen + 1)
    case Cooldown => s.(skippedCooldown := s.skippedCooldown + 1)
    case Conflict => s.(skippedConflict := s.skippedConflict + 1)
  }

  lemma {:induction false} SkipLogged(log: seq<Event>, kind: SkipKind, cooldown: nat, left: int, open: bool, closed: nat,
        s: Summary, reasons: map<string, nat>)
    requires LogOk(log, cooldown, left, open, closed, s)
    ensures LogOk(log + [Skip(kind)], cooldown, left, open, closed, Skipped(s, kind).(regimeSkipReasons := reasons))
  {
    hide Count, CooldownLeft, Patient;
    LogSnoc(log, Skip(kind), cooldown);
  }

  lemma {:induction false} RefusalLogged(log: seq<Event>, cooldown: nat, left: int, open: bool, closed: nat, s: Summary)
    requires LogOk(log, cooldown, left, open, closed, s)
    ensures LogOk(log + [Refused], cooldown, left, open, closed, s)
  {
    hide Count, CooldownLeft, Patient;
    LogSnoc(log, Refused, cooldown);
  }

  lemma {:induction false} SkipKeepsBooks(c: Config, trades: seq<Trade>, equity: real, peakEquity: real,
        consecutiveLosses: nat, totals: Excursions,
                                          s: Summary, kind: SkipKind, reasons: map<string, nat>)
    requires BooksOk(c, trades, equity, peakEquity, consecutiveLosses, totals, s)
    ensures BooksOk(c, trades, equity, peakEquity, consecutiveLosses, totals, Skipped(s, kind).(regimeSkipReasons := reasons))
  {
    hide CurveOk, StreakOk, Wins, Losses, Cost, CountReason, CountLosses, Totals;
  }

  // ----- why a regime skips a signal -----

  predicate HasPrefix(s: string, prefix: string) {
    |prefix| <= |s| && s[..|prefix|] == prefix
  }

  predicate Telling(reason: string) {
    && (HasPrefix(reason, "v4_") || HasPrefix(reason, "v5_") || HasPrefix(reason, "v6_"))
    && reason !in ["v4_permitted", "v4_release_confirmed", "v5_permitted", "v5_fast_release_confirmed", "v6_permitted", "v6_fast_release_confirmed"]
  }

  /** A telling reason is one of V4, V5 or V6 that does not say it was permitted. */
  lemma {:induction false} TellingSays(reason: string)
    ensures Telling(reason) <==> |reason| >= 3 && reason[0] == 'v' && '4' <= reason[1] <= '6' && reason[2] == '_'
                                 && reason !in ["v4_permitted", "v4_release_confirmed", "v5_permitted", "v5_fast_release_confirmed",
                                                "v6_permitted", "v6_fast_release_confirmed"]
  {
    if |reason| >= 3 {
      assert reason[..3] == [reason[0], reason[1], reason[2]];
    }
  }

  /** The last telling reason, or nothing. */
  function LastTelling(reasons: seq<string>): (r: string)
    ensures r != "" ==> r in reasons && Telling(r)
    ensures r == "" ==> forall i :: 0 <= i < |reasons| ==> !Telling(reasons[i])
  {
    if reasons == [] then ""
    else if Telling(reasons[|reasons| - 1]) then reasons[|reasons| - 1]
    else LastTelling(reasons[..|reasons| - 1])
  }

  predicate Blocked(side: Side, regime: Regime) {
    (side == Buy && !regime.allowLong) || (side == Sell && !regime.allowShort)
  }

  function RegimeSkipReason(side: Side, regime: Regime): string {
    if (side == Buy && !regime.allowLong && regime.allowShort) || (side == Sell && !regime.allowShort && regime.allowLong)
    then "v4_countertrend_signal"
    else LastTelling(regime.reasons)
  }

  /** What an entry attempt amounts to; the checks are ordered. */
  function Attempt(snapshot: Snapshot, side: Side, regime: Option<Regime>, open: bool, cooldownLeft: int): Event {
    if regime.None? then Skip(NoRegime)
    else if side.Other? then Refused
    else if Blocked(side, regime.value) then Skip(ByRegime)
    else if open then Skip(WhileOpen)
    else if cooldownLeft > 0 then Skip(Cooldown)
    else if EntryOf(snapshot).None? then Refused
    else Enter
  }

  predicate Positive(price: Option<real>) {
    price.Some? && price.value > 0.0
  }

  /** The price and time an entry would get: of the bar, or of the execution quote in a backtest. */
  function EntryOf(s: Snapshot): Option<(real, int)> {
    if s.backtest then
      if s.execution.None? || !s.execution.value.hasPrice || s.execution.value.time <= 0 || !Positive(s.execution.value.lastPrice) then None
      else Some((s.execution.value.lastPrice.value, s.execution.value.time))
    else if !Positive(s.close) then None
    else Some((s.close.value, s.closeTime))
  }

  /** A backtest without an execution quote is turned away silently. */
  predicate Quoted(s: Snapshot) {
    s.backtest ==> s.execution.Some? && s.execution.value.hasPrice && s.execution.value.time > 0
  }

  // ----- the replay -----

  class SinglePositionReplay {
    const config: Config
    var position: Option<Position>
    var cooldownRemaining: int
    var equity: real
    var peakEquity: real
    var lastClose: real
    var lastCloseTime: int
    var consecutiveLosses: nat
    var totals: Excursions
    var trades: seq<Trade>
    var summary: Summary
    ghost var log: seq<Event>
    ghost var path: seq<Range>

    /** The open position's stop is what its earlier bars earned. */
    ghost predicate PositionOk()
      reads `position, `path
    {
      position.Some? ==>
        var p := position.value;
        && p.entryPrice > 0.0 && !p.side.Other?
        && p.peakFavorable == PeakFavorable(p.side, p.entryPrice, path)
        && p.maxAdverse == PeakAdverse(p.side, p.entryPrice, path)
        && p.stopBps == StopFor(config, p.peakFavorable)
    }

    ghost predicate Books()
      reads `trades, `equity, `peakEquity, `consecutiveLosses, `totals, `summary
    {
      BooksOk(config, trades, equity, peakEquity, consecutiveLosses, totals, summary)
    }

    ghost predicate Logged()
      reads `log, `cooldownRemaining, `position, `trades, `summary
      requires config.cooldownBars >= 0
    {
      LogOk(log, config.cooldownBars, cooldownRemaining, position.Some?, |trades|, summary)
    }

    ghost predicate Valid()
      reads this
    {
      ValidConfig(config) && PositionOk() && Books() && Logged()
    }

    constructor (config: Config)
      requires ValidConfig(config)
      ensures Valid() && this.config == config && position == None && trades == [] && log == []
    {
      this.config := config;
      position, cooldownRemaining := None, 0;
      equity, peakEquity := config.initialEquity, config.initialEquity;
      lastClose, lastCloseTime := 0.0, 0;
      consecutiveLosses, totals, trades, summary := 0, Excursions(0, 0.0, 0.0, 0.0, 0.0), [], EMPTY_SUMMARY;
      log, path := [], [];
      hide BooksOk, LogOk;
      EmptyBooks(config);
      new;
    }

    /** A replay exists exactly for a valid configuration. */
    static method New(config: Config) returns (r: Option<SinglePositionReplay>)
      ensures r.Some? <==> ValidConfig(config)
      ensures r.Some? ==> fresh(r.value) && r.value.Valid() && r.value.config == config && r.value.position == None && r.value.trades == []
    {
      if config.initialEquity <= 0.0 || config.marginQuote <= 0.0 || config.leverage <= 0.0 ||
         config.initialStopBps <= 0.0 || config.breakEvenTriggerBps <= 0.0 || config.breakEvenFloorBps < 0.0 ||
         config.trailingTriggerBps <= 0.0 || config.trailingDrawdownBps <= 0.0 ||
         config.maxHoldingNs <= 0 || config.cooldownBars < 0 || config.feeRate < 0.0 || config.slippageBps < 0.0 {
        return None;
      }
      if config.breakEvenFloorBps >= config.breakEvenTriggerBps || config.trailingTriggerBps < config.breakEvenTriggerBps {
        return None;
      }
      var replay := new SinglePositionReplay(config);
      r := Some(replay);
    }

    /**
     * One bar.  A bar that does not parse changes nothing.  An open position is closed
     * exactly as ExitOf says from the bars before, or else keeps a stop that includes this
     * bar; while flat a bar wears off the cooldown.
     */
    method Advance(kline: Kline) returns (failed: bool)
      requires Valid()
      modifies this
      ensures Valid()
      ensures failed <==> !Positive(kline.high) || !Positive(kline.low) || !Positive(kline.close)
      ensures failed ==> unchanged(this)
      ensures !failed ==> lastClose == kline.close.value && lastCloseTime == kline.closeTime
      ensures !failed && old(position).None? ==> position.None? && trades == old(trades) && log == old(log) + [Bar]
      ensures !failed && old(position).Some? ==>
                var p, bar := old(position).value, Range(kline.high.value, kline.low.value);
                match ExitOf(config, p, old(path), bar, kline.close.value, kline.closeTime)
                case None =>
                  && trades == old(trades) && log == old(log) + [Bar] && path == old(path) + [bar]
                  && position.Some? && SameEntry(position.value, p)
                case Some(exit) =>
                  && position.None? && log == old(log) + [Bar, Exit]
                  && trades == old(trades) + [TradeOf(config, p, old(path) + [bar], exit.0, exit.1, kline.closeTime)]
    {
      hide BooksOk, LogOk, PeakFavorable, PeakAdverse, StopFor, StopLabel, HoldingLimit;
      hide Favorable, Adverse, WorstGross, DirectionalReturn, NetPnl;
      if !Positive(kline.high) || !Positive(kline.low) || !Positive(kline.close) {
        return true;
      }
      failed := false;
      var high, low, closePrice := kline.high.value, kline.low.value, kline.close.value;
      BarLogged(log, config.cooldownBars, cooldownRemaining, position.Some?, |trades|, summary);
      if position.None? {
        lastClose, lastCloseTime := closePrice, kline.closeTime;
        if cooldownRemaining > 0 {
          cooldownRemaining := cooldownRemaining - 1;
        }
        log := log + [Bar];
        return;
      }
      OpenMeansNoCooldown(log, config.cooldownBars, cooldownRemaining, |trades|, summary);
      var p := position.value;
      PathSnoc(p.side, p.entryPrice, path, Range(high, low));
      var favorable, adverse := Favorable(p.side, p.entryPrice, high, low), Adverse(p.side, p.entryPrice, high, low);
      var moved := p.(peakFavorable := Max(p.peakFavorable, favorable), maxAdverse := Max(p.maxAdverse, adverse));
      StopOnlyTightens(config, p.peakFavorable, moved.peakFavorable);
      assert log + [Bar] + [Exit] == log + [Bar, Exit];
      lastClose, lastCloseTime := closePrice, kline.closeTime;
      log, path := log + [Bar], path + [Range(high, low)];
      if WorstGross(p.side, p.entryPrice, high, low) <= p.stopBps {
        Close(moved, p.stopBps, kline.closeTime, StopLabel(config, p.stopBps, favorable));
        return;
      }
      if kline.closeTime - p.entryTime >= HoldingLimit(config) {
        Close(moved, DirectionalReturn(p.side, p.entryPrice, closePrice), kline.closeTime, MaxHolding);
        return;
      }
      var stop := p.stopBps;
      if moved.peakFavorable >= config.breakEvenTriggerBps {
        stop := Max(stop, config.breakEvenFloorBps);
      }
      if moved.peakFavorable >= config.trailingTriggerBps {
        stop := Max(stop, moved.peakFavorable - config.trailingDrawdownBps);
      }
      position := Some(moved.(stopBps := stop));
    }

    /** The trade is appended to the books, the position is gone and the cooldown starts. */
    method Close(p: Position, grossBps: real, exitTime: int, reason: Reason)
      requires ValidConfig(config) && Books()
      requires LogOk(log, config.cooldownBars, cooldownRemaining, true, |trades|, summary)
      requires p.entryPrice > 0.0 && p.peakFavorable == PeakFavorable(p.side, p.entryPrice, path)
           && p.maxAdverse == PeakAdverse(p.side, p.entryPrice, path)
      modifies `position, `cooldownRemaining, `equity, `peakEquity, `consecutiveLosses, `totals, `trades, `summary, `log
      ensures Valid() && position == None
      ensures log == old(log) + [Exit] && trades == old(trades) + [TradeOf(config, p, path, grossBps, reason, exitTime)]
    {
      hide CurveOk, StreakOk, ProfitOk, ExitsOk, LossesOk, LogOk, PeakFavorable, PeakAdverse, Totals, NetPnl, Cost, SameSkips;
      var giveback := Max(0.0, p.peakFavorable - grossBps);
      var pnl := NetPnl(config, grossBps);
      var trade := Trade(p.side, p.entryTime, exitTime, p.entryPrice, reason, grossBps, pnl, p.peakFavorable, p.maxAdverse, giveback);
      var s1, streak := FileProfit(config, trades, trade, Cost(config), summary, consecutiveLosses);
      var s2 := FileExit(trades, trade, s1);
      var newEquity, newPeak, s3 := MoveEquity(config, trades, trade, equity, peakEquity, s2);
      var newTotals := Excursions(totals.holding + (exitTime - p.entryTime), totals.mfe + p.peakFavorable, totals.mae + p.maxAdverse,
                                  totals.giveback + giveback, if pnl < 0.0 then totals.losingMfe + p.peakFavorable else totals.losingMfe);
      TotalsSnoc(trades, trade);
      BooksFromStages(config, trades + [trade], newEquity, newPeak, streak, newTotals, s1, s2, s3);
      SkipsCarry(summary, s1, s3);
      ExitLogged(log, config.cooldownBars, cooldownRemaining, |trades|, summary, s3);
      trades, summary, consecutiveLosses := trades + [trade], s3, streak;
      equity, peakEquity, totals := newEquity, newPeak, newTotals;
      position, cooldownRemaining := None, config.cooldownBars;
      log := log + [Exit];
    }

    /**
     * An entry attempt: exactly one event is logged, and only Enter changes the position.
     */
    method TryEnter(snapshot: Snapshot, side: Side, regime: Option<Regime>) returns (entered: bool, failed: bool)
      requires Valid()
      modifies this
      ensures Valid()
      ensures var event := Attempt(snapshot, side, regime, old(position).Some?, old(cooldownRemaining));
              && log == old(log) + [event] && trades == old(trades) && cooldownRemaining == old(cooldownRemaining)
              && entered == (event == Enter)
              && (failed <==> event == Refused && (side.Other? || Quoted(snapshot)))
              && (if event == Enter then
                    position == Some(Position(side, EntryOf(snapshot).value.0, EntryOf(snapshot).value.1,
                         -config.initialStopBps, 0.0, 0.0)) && path == []
                  else position == old(position) && path == old(path))
              && (event == Skip(ByRegime) ==>
                    summary.regimeSkipReasons == Tally(old(summary.regimeSkipReasons), RegimeSkipReason(side, regime.value)))
              && (event != Skip(ByRegime) ==> summary.regimeSkipReasons == old(summary.regimeSkipReasons))
    {
      hide BooksOk, LogOk, PeakFavorable, PeakAdverse, StopFor, LastTelling;
      entered, failed := false, false;
      var reasons := summary.regimeSkipReasons;
      if regime.None? {
        RecordSkip(NoRegime, reasons);
        return;
      }
      if side != Buy && side != Sell {
        Refuse();
        return false, true;
      }
      if (side == Buy && !regime.value.allowLong) || (side == Sell && !regime.value.allowShort) {
        RecordSkip(ByRegime, Tally(reasons, RegimeSkipReason(side, regime.value)));
        return;
      }
      if position.Some? {
        RecordSkip(WhileOpen, reasons);
        return;
      }
      if cooldownRemaining > 0 {
        RecordSkip(Cooldown, reasons);
        return;
      }
      var priceText, entryTime := snapshot.close, snapshot.closeTime;
      if snapshot.backtest {
        if snapshot.execution.None? || !snapshot.execution.value.hasPrice || snapshot.execution.value.time <= 0 {
          Refuse();
          return;
        }
        priceText, entryTime := snapshot.execution.value.lastPrice, snapshot.execution.value.time;
      }
      if !Positive(priceText) {
        Refuse();
        return false, true;
      }
      EntryLogged(log, config.cooldownBars, cooldownRemaining, |trades|, summary);
      FreshPosition(config, side, priceText.value);
      position, path := Some(Position(side, priceText.value, entryTime, -config.initialStopBps, 0.0, 0.0)), [];
      log := log + [Enter];
      entered := true;
    }

    method RecordSkip(kind: SkipKind, reasons: map<string, nat>)
      requires Valid()
      modifies `summary, `log
      ensures Valid() && log == old(log) + [Skip(kind)] && summary.regimeSkipReasons == reasons
    {
      hide BooksOk, LogOk, PeakFavorable, PeakAdverse, StopFor;
      SkipLogged(log, kind, config.cooldownBars, cooldownRemaining, position.Some?, |trades|, summary, reasons);
      SkipKeepsBooks(config, trades, equity, peakEquity, consecutiveLosses, totals, summary, kind, reasons);
      summary := Skipped(summary, kind).(regimeSkipReasons := reasons);
      log := log + [Skip(kind)];
    }

    ghost method Refuse()
      requires Valid()
      modifies `log
      ensures Valid() && log == old(log) + [Refused]
    {
      hide BooksOk, LogOk, PeakFavorable, PeakAdverse, StopFor;
      RefusalLogged(log, config.cooldownBars, cooldownRemaining, position.Some?, |trades|, summary);
      log := log + [Refused];
    }

    method SkipConflict()
      requires Valid()
      modifies this
      ensures Valid() && log == old(log) + [Skip(Conflict)] && position == old(position) && trades == old(trades)
    {
      RecordSkip(Conflict, summary.regimeSkipReasons);
    }

    /** The return of the open position at a bar close, for experiments that exit at the close. */
    method OpenReturnBps(close: Option<real>) returns (value: real, open: bool, failed: bool)
      requires Valid()
      ensures open <==> position.Some? && Positive(close)
      ensures failed <==> position.Some? && !Positive(close)
      ensures value == if open then DirectionalReturn(position.value.side, position.value.entryPrice, close.value) else 0.0
    {
      if position.None? {
        return 0.0, false, false;
      }
      if !Positive(close) {
        return 0.0, false, true;
      }
      return DirectionalReturn(position.value.side, position.value.entryPrice, close.value), true, false;
    }

    method CloseAtMarket(bar: Kline, reason: string) returns (closed: bool, failed: bool)
      requires Valid()
      modifies this
      ensures Valid()
      ensures closed <==> old(position).Some? && Positive(bar.close) && bar.closeTime > 0
      ensures failed <==> old(position).Some? && !closed
      ensures !closed ==> unchanged(this)
      ensures closed ==>
                var p := old(position).value;
                && position.None? && log == old(log) + [Exit]
                && trades == old(trades) + [TradeOf(config, p, path, DirectionalReturn(p.side, p.entryPrice, bar.close.value),
                  ReasonOf(reason), bar.closeTime)]
    {
      hide BooksOk, LogOk, PeakFavorable, PeakAdverse, StopFor, DirectionalReturn, NetPnl, ReasonOf;
      if position.None? {
        return false, false;
      }
      if !Positive(bar.close) || bar.closeTime <= 0 {
        return false, true;
      }
      var p := position.value;
      Close(p, DirectionalReturn(p.side, p.entryPrice, bar.close.value), bar.closeTime, ReasonOf(reason));
      return true, false;
    }

    /** The end of the data closes what is open at the last accepted close, if there was one. */
    method Finish()
      requires Valid()
      modifies this
      ensures Valid()
      ensures old(position).None? || lastClose <= 0.0 ==> unchanged(this)
      ensures old(position).Some? && lastClose > 0.0 ==>
                var p := old(position).value;
                && position.None? && log == old(log) + [Exit] && lastClose == old(lastClose) && lastCloseTime == old(lastCloseTime)
                && trades == old(trades) + [TradeOf(config, p, path, DirectionalReturn(p.side, p.entryPrice, lastClose),
                  DatasetEnd, lastCloseTime)]
    {
      hide BooksOk, LogOk, PeakFavorable, PeakAdverse, StopFor, DirectionalReturn, NetPnl;
      if position.Some? && lastClose > 0.0 {
        var p := position.value;
        Close(p, DirectionalReturn(p.side, p.entryPrice, lastClose), lastCloseTime, DatasetEnd);
      }
    }
  }

  function Tally(reasons: map<string, nat>, reason: string): map<string, nat> {
    if reason == "" then reasons
    else if reason in reasons then reasons[reason := reasons[reason] + 1]
    else reasons[reason := 1]
  }

  /** A reason counts once, no other count moves, and no reason counts nowhere. */
  lemma {:induction false} TallyCounts(reasons: map<string, nat>, reason: string, other: string)
    ensures var t := Tally(reasons, reason);
            && (reason == "" ==> t == reasons)
            && (reason != "" ==> reason in t && t[reason] == (if reason in reasons then reasons[reason] else 0) + 1)
            && (other != reason ==> (other in t <==> other in reasons) && (other in t ==> t[other] == reasons[other]))
  {
  }

  /** A position that has seen no bar sits at the initial stop. */
  lemma {:induction false} FreshPosition(c: Config, side: Side, entry: real)
    requires ValidConfig(c) && entry > 0.0
    ensures PeakFavorable(side, entry, []) == 0.0 && PeakAdverse(side, entry, []) == 0.0 && StopFor(c, 0.0) == -c.initialStopBps
  {
  }

  // ----- whole runs -----

  /** The stop a longer path earns is never looser: while a position is open its stop only tightens. */
  lemma {:induction false} StopNeverLoosens(c: Config, side: Side, entry: real, path: seq<Range>, k: nat)
    requires ValidConfig(c) && entry > 0.0 && k <= |path|
    ensures PeakFavorable(side, entry, path[..k]) <= PeakFavorable(side, entry, path)
    ensures -c.initialStopBps <= StopFor(c, PeakFavorable(side, entry, path[..k])) <= StopFor(c, PeakFavorable(side, entry, path))
    decreases |path|
  {
    hide StopFor, Favorable;
    if k < |path| {
      StopNeverLoosens(c, side, entry, path[..|path| - 1], k);
      assert path[..|path| - 1][..k] == path[..k];
      StopOnlyTightens(c, PeakFavorable(side, entry, path[..|path| - 1]), PeakFavorable(side, entry, path));
    } else {
      assert path[..k] == path;
      StopOnlyTightens(c, PeakFavorable(side, entry, path), PeakFavorable(side, entry, path));
    }
  }

  /** At any point of any run the books balance: equity, net result, profits, losses and loss kinds. */
  lemma {:induction false} BooksBalance(c: Config, trades: seq<Trade>, equity: real, peakEquity: real, consecutiveLosses: nat,
        totals: Excursions, s: Summary)
    requires BooksOk(c, trades, equity, peakEquity, consecutiveLosses, totals, s)
    ensures equity == c.initialEquity + s.netPnl == c.initialEquity + s.grossProfit - s.grossLoss
    ensures s.winningTrades + s.losingTrades <= s.trades
    ensures s.lossTimeout + s.lossNoProfit + s.lossSmallProfit + s.lossGiveback + CountLosses(c, trades, Unfiled) == s.losingTrades
  {
    hide StreakOk, Equity, Wins, Losses, CountReason, CountLosses, IsPeak, IsMaxDrawdown, Cost;
    EquityIsProfitLessLoss(c.initialEquity, trades);
    LossKindsPartition(c, trades);
  }

  lemma {:induction false} SkipsCarry(s: Summary, t: Summary, u: Summary)
    requires SameSkips(s, t) && SameSkips(t, u)
    ensures SameSkips(s, u)
  {
  }

  lemma {:induction false} OpenMeansNoCooldown(log: seq<Event>, cooldown: nat, left: int, closed: nat, s: Summary)
    requires LogOk(log, cooldown, left, true, closed, s)
    ensures left == 0
  {
  }

  predicate SameEntry(p: Position, q: Position) {
    p.side == q.side && p.entryPrice == q.entryPrice && p.entryTime == q.entryTime
  }

  /** The trade a closed position leaves behind. */
  function TradeOf(c: Config, p: Position, path: seq<Range>, grossBps: real, reason: Reason, time: int): Trade
    requires p.entryPrice > 0.0
  {
    var peak := PeakFavorable(p.side, p.entryPrice, path);
    Trade(p.side, p.entryTime, time, p.entryPrice, reason, grossBps, NetPnl(c, grossBps), peak,
         PeakAdverse(p.side, p.entryPrice, path), Max(0.0, peak - grossBps))
  }

  // ----- an exit and an entry in prices -----

  /** What the best gain and the worst loss of a path say: no bar trades beyond them, and each is zero or traded. */
  lemma {:induction false} PeaksInPrices(side: Side, entry: real, path: seq<Range>) returns (best: nat, worst: nat)
    requires entry > 0.0
    ensures var gain, loss := PeakFavorable(side, entry, path), PeakAdverse(side, entry, path);
            && gain >= 0.0 && loss >= 0.0
            && (forall i :: 0 <= i < |path| ==>
                  if side == Sell then path[i].low >= PriceAt(side, entry, gain) && path[i].high <= PriceAt(side, entry, -loss)
                  else path[i].high <= PriceAt(side, entry, gain) && path[i].low >= PriceAt(side, entry, -loss))
            && (gain > 0.0 ==> best < |path| && (if side == Sell then path[best].low else path[best].high) == PriceAt(side, entry, gain))
            && (loss > 0.0 ==> worst < |path| && (if side == Sell then path[worst].high else path[worst].low) == PriceAt(side, entry, -loss))
    decreases |path|
  {
    hide PriceAt, Favorable, Adverse;
    best, worst := 0, 0;
    if path != [] {
      var rest, bar := path[..|path| - 1], path[|path| - 1];
      best, worst := PeaksInPrices(side, entry, rest);
      var gain, loss := PeakFavorable(side, entry, path), PeakAdverse(side, entry, path);
      PriceOrder(side, entry, PeakFavorable(side, entry, rest), gain);
      PriceOrder(side, entry, -loss, -PeakAdverse(side, entry, rest));
      ExcursionWithin(side, entry, bar.high, bar.low, gain, loss);
      if gain > PeakFavorable(side, entry, rest) {
        FavorableIsTraded(side, entry, bar.high, bar.low, gain);
        best := |path| - 1;
      }
      if loss > PeakAdverse(side, entry, rest) {
        AdverseIsTraded(side, entry, bar.high, bar.low, loss);
        worst := |path| - 1;
      }
    }
  }

  /**
   * A bar closes a position at its stop exactly when it trades at the price of the stop, which
   * the bars before alone have moved; otherwise at its close exactly when the holding time is
   * up.  The gross return is that of the price it closes at.
   */
  lemma {:induction false} ExitInPrices(c: Config, p: Position, path: seq<Range>, bar: Range, close: real, time: int)
    requires ValidConfig(c) && p.entryPrice > 0.0 && !p.side.Other?
    ensures var stop, exit := StopFor(c, PeakFavorable(p.side, p.entryPrice, path)), ExitOf(c, p, path, bar, close, time);
            var stopPrice := PriceAt(p.side, p.entryPrice, stop);
            var touched, late := if p.side == Buy then bar.low <= stopPrice else bar.high >= stopPrice,
                                 (time - p.entryTime + 1) * 1000000 > c.maxHoldingNs;
            && (exit.Some? <==> touched || late)
            && (touched ==> exit.value.0 == stop && exit.value.1 == StopLabel(c, stop, Favorable(p.side, p.entryPrice, bar.high, bar.low)))
            && (!touched && late ==> PriceAt(p.side, p.entryPrice, exit.value.0) == close && exit.value.1 == MaxHolding)
  {
    hide StopFor, StopLabel, PeakFavorable, Favorable, DirectionalReturn, WorstGross;
    var stop := StopFor(c, PeakFavorable(p.side, p.entryPrice, path));
    WorstInPrices(p.side, p.entryPrice, bar.high, bar.low, stop);
    ReturnInPrices(p.side, p.entryPrice, close);
    HoldingLimitIs(c, time - p.entryTime);
  }

  lemma {:induction false} HoldingLimitIs(c: Config, held: int)
    ensures held >= HoldingLimit(c) <==> (held + 1) * 1000000 > c.maxHoldingNs
  {
  }

  lemma {:induction false} WorstInPrices(side: Side, entry: real, high: real, low: real, bps: real)
    requires entry > 0.0 && !side.Other?
    ensures WorstGross(side, entry, high, low) <= bps
            <==> if side == Buy then low <= PriceAt(side, entry, bps) else high >= PriceAt(side, entry, bps)
  {
    hide Bps;
    MoveReaches(entry, low, bps);
    MoveReaches(entry, high, -bps);
    MoveBack(entry, high);
  }

  /** The trade on record: its extremes in prices, and what it gave back of its best gain. */
  lemma {:induction false} TradeSays(c: Config, p: Position, path: seq<Range>, grossBps: real, reason: Reason, time: int)
    requires p.entryPrice > 0.0
    ensures var t := TradeOf(c, p, path, grossBps, reason, time);
            && (t.side, t.entryTime, t.exitTime, t.entryPrice, t.reason, t.grossBps) == (p.side, p.entryTime, time, p.entryPrice, reason, grossBps)
            && 10000.0 * (t.netPnl + Cost(c)) == c.marginQuote * c.leverage * grossBps
            && t.mfe == PeakFavorable(p.side, p.entryPrice, path) && t.mae == PeakAdverse(p.side, p.entryPrice, path)
            && t.giveback >= 0.0 && (t.mfe >= grossBps ==> t.giveback == t.mfe - grossBps) && (t.mfe <= grossBps ==> t.giveback == 0.0)
  {
    hide PeakFavorable, PeakAdverse, NetPnl, Cost;
    NetIsGrossLessCost(c, grossBps);
  }

  /** Which of the outcomes an entry attempt has, each in terms of what it is given. */
  lemma {:induction false} AttemptSays(s: Snapshot, side: Side, regime: Option<Regime>, open: bool, cooldownLeft: int)
    ensures var e := Attempt(s, side, regime, open, cooldownLeft);
            var allowed := regime.Some? && ((side == Buy && regime.value.allowLong) || (side == Sell && regime.value.allowShort));
            var price := if s.backtest then (if s.execution.None? then None else s.execution.value.lastPrice) else s.close;
            var quoted := s.backtest ==> s.execution.Some? && s.execution.value.hasPrice && s.execution.value.time > 0;
            && (e == Skip(NoRegime) <==> regime.None?)
            && (e == Skip(ByRegime) <==> regime.Some? && (side == Buy || side == Sell) && !allowed)
            && (e == Skip(WhileOpen) <==> allowed && open)
            && (e == Skip(Cooldown) <==> allowed && !open && cooldownLeft > 0)
            && (e == Enter <==> allowed && !open && cooldownLeft <= 0 && quoted && price.Some? && price.value > 0.0)
            && (e == Enter ==> EntryOf(s) == Some((price.value, if s.backtest then s.execution.value.time else s.closeTime)))
            && e != Bar && e != Exit && e != Skip(Conflict)
  {
  }

  /** A blocked signal is countertrend when the other side is open; otherwise the last telling reason is kept. */
  lemma {:induction false} SkipReasonSays(side: Side, regime: Regime)
    requires Blocked(side, regime)
    ensures var r, otherOpen := RegimeSkipReason(side, regime), if side == Buy then regime.allowShort else regime.allowLong;
            && (otherOpen ==> r == "v4_countertrend_signal")
            && (!otherOpen && (exists i :: 0 <= i < |regime.reasons| && Telling(regime.reasons[i])) ==>
                  exists i :: 0 <= i < |regime.reasons| && r == regime.reasons[i] && Telling(r)
                              && forall k :: i < k < |regime.reasons| ==> !Telling(regime.reasons[k]))
            && (!otherOpen && (forall i :: 0 <= i < |regime.reasons| ==> !Telling(regime.reasons[i])) ==> r == "")
  {
    hide Telling, LastTelling;
    LastTellingIsLast(regime.reasons);
  }

  lemma {:induction false} LastTellingIsLast(reasons: seq<string>)
    ensures LastTelling(reasons) == "" <==> forall i :: 0 <= i < |reasons| ==> !Telling(reasons[i])
    ensures LastTelling(reasons) != "" ==>
              exists i :: 0 <= i < |reasons| && LastTelling(reasons) == reasons[i] && Telling(reasons[i])
                          && forall k :: i < k < |reasons| ==> !Telling(reasons[k])
    decreases |reasons|
  {
    if reasons != [] {
      var rest := reasons[..|reasons| - 1];
      LastTellingIsLast(rest);
      if !Telling(reasons[|reasons| - 1]) && LastTelling(rest) != "" {
        var i :| 0 <= i < |rest| && LastTelling(rest) == rest[i] && Telling(rest[i]) && forall k :: i < k < |rest| ==> !Telling(rest[k]);
        assert reasons[i] == rest[i];
        assert forall k :: i < k < |reasons| ==> !Telling(reasons[k]);
      }
    }
  }
}
