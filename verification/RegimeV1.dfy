/**
 * The first market-regime detector: seven states, a frozen breakout range, and what every
 * run of it guarantees.
 */
module RegimeV1 {
  import opened Numeric
  import opened TailBuffer

  datatype State = Normal | ChopWatch | ChopLock | BreakoutPending | TrendArmed | TrendActive | FailedBreakout

  datatype Direction = NoDirection | Long | Short

  /** `higherIntervals` is the number of interval names. */
  datatype Config = Config(
    higherIntervals: nat, windowBars: nat, minDormantIntervals: int, minDormantVotes: int,
    maxMaSpreadAtr: real, maxMacdAxisAtr: real, maxMaSlopePct: real, maxEfficiencyRatio: real, maxPlatformRangeAtr: real,
    stallMaxEfficiency: real, stallMaxRangeAtr: real,
    lockConfirmBars: nat, unlockEvidenceBars: nat, breakoutConfirmBars: nat, failedBreakoutBars: nat,
    breakoutVolumeRatio: real, minBreakoutMacdAxisAtr: real, maxMacdHistogramAtr: real)

  predicate ValidConfig(c: Config) {
    && c.higherIntervals > 0 && c.windowBars >= 3 && 0 < c.minDormantIntervals <= c.higherIntervals && 0 < c.minDormantVotes <= 5
    && c.maxMaSpreadAtr > 0.0 && c.maxMacdAxisAtr > 0.0 && c.maxMaSlopePct > 0.0
    && c.maxEfficiencyRatio > 0.0 && c.maxPlatformRangeAtr > 0.0
    && c.stallMaxEfficiency > 0.0 && c.stallMaxRangeAtr > 0.0
    && c.lockConfirmBars > 0 && c.unlockEvidenceBars > 0 && c.breakoutConfirmBars > 0 && c.failedBreakoutBars > 0
    && c.breakoutVolumeRatio > 0.0 && c.minBreakoutMacdAxisAtr > 0.0 && c.maxMacdHistogramAtr > 0.0
  }

  /** What one transition looks at: the close, the platform range, and the classified evidence. */
  datatype Tick = Tick(close: real, high: real, low: real, volumeRatio: real, dormant: bool, supported: bool)

  datatype Core = Core(
    state: State, direction: Direction, stateBars: nat, lockEvidence: nat, unlockEvidence: nat,
    breakoutBars: nat, failedBars: nat, breakoutHigh: real, breakoutLow: real, failedBreakouts: nat)

  const START := Core(Normal, NoDirection, 0, 0, 0, 0, 0, 0.0, 0.0, 0)

  predicate Outside(d: Direction, high: real, low: real, close: real) {
    (d == Long && close > high) || (d == Short && close < low)
  }

  // ----- one transition -----

  function Move(c: Config, k: Core, t: Tick): Core {
    match k.state
    case Normal =>
      if !t.dormant then k
      else k.(lockEvidence := k.lockEvidence + 1, state := if k.lockEvidence + 1 == 1 then ChopWatch else Normal)
    case ChopWatch =>
      if t.dormant then k.(lockEvidence := k.lockEvidence + 1, state := if k.lockEvidence + 1 >= c.lockConfirmBars then ChopLock else ChopWatch)
      else k.(state := Normal, lockEvidence := 0)
    case ChopLock =>
      if t.volumeRatio >= c.breakoutVolumeRatio && (t.close > t.high || t.close < t.low) then
        k.(state := BreakoutPending, breakoutHigh := t.high, breakoutLow := t.low, breakoutBars := 1, unlockEvidence := 0,
           direction := if t.close > t.high then Long else Short)
      else if t.dormant then k.(unlockEvidence := 0)
      else if k.unlockEvidence + 1 >= c.unlockEvidenceBars then k.(state := Normal, direction := NoDirection,
           lockEvidence := 0, unlockEvidence := 0)
      else k.(unlockEvidence := k.unlockEvidence + 1)
    case BreakoutPending =>
      if Outside(k.direction, k.breakoutHigh, k.breakoutLow, t.close) then
        k.(breakoutBars := k.breakoutBars + 1,
           state := if k.breakoutBars + 1 >= c.breakoutConfirmBars && t.supported then TrendArmed else BreakoutPending)
      else k.(state := FailedBreakout, failedBars := 1, breakoutBars := 0, failedBreakouts := k.failedBreakouts + 1)
    case TrendArmed => k.(state := TrendActive)
    case TrendActive =>
      if !t.dormant then k.(lockEvidence := 0)
      else if k.lockEvidence + 1 >= c.lockConfirmBars then k.(state := ChopLock, direction := NoDirection, lockEvidence := 0)
      else k.(lockEvidence := k.lockEvidence + 1)
    case FailedBreakout =>
      if k.failedBars + 1 >= c.failedBreakoutBars then k.(state := ChopLock, direction := NoDirection, failedBars := 0)
      else k.(failedBars := k.failedBars + 1)
  }

  function Step(c: Config, k: Core, t: Tick): Core {
    var next := Move(c, k, t);
    next.(stateBars := if next.state == k.state then k.stateBars + 1 else 1)
  }

  function After(c: Config, ticks: seq<Tick>): Core {
    if ticks == [] then START else Step(c, After(c, ticks[..|ticks| - 1]), ticks[|ticks| - 1])
  }

  function StateAt(c: Config, ticks: seq<Tick>, n: nat): State
    requires n <= |ticks|
  {
    After(c, ticks[..n]).state
  }

  lemma {:induction false} AfterSnoc(c: Config, ticks: seq<Tick>, t: Tick)
    ensures After(c, ticks + [t]) == Step(c, After(c, ticks), t)
  {
  }

  lemma {:induction false} StatesOfPrefix(c: Config, ticks: seq<Tick>, t: Tick)
    ensures forall i :: 0 <= i <= |ticks| ==> StateAt(c, ticks + [t], i) == StateAt(c, ticks, i)
    ensures StateAt(c, ticks + [t], |ticks| + 1) == After(c, ticks + [t]).state
    ensures StateAt(c, ticks, |ticks|) == After(c, ticks).state
  {
    hide After;
    forall i | 0 <= i <= |ticks| ensures StateAt(c, ticks + [t], i) == StateAt(c, ticks, i) {
      assert (ticks + [t])[..i] == ticks[..i];
    }
    assert (ticks + [t])[..|ticks| + 1] == ticks + [t] && ticks[..|ticks|] == ticks;
  }

  // ----- every run -----

  predicate Directed(s: State) {
    s == BreakoutPending || s == TrendArmed || s == TrendActive || s == FailedBreakout
  }

  /** The counters that never leave their range. */
  ghost predicate Sane(c: Config, k: Core) {
    && (k.direction != NoDirection <==> Directed(k.state))
    && (k.state == Normal ==> k.lockEvidence == 0 && k.unlockEvidence == 0)
    && (k.state == ChopWatch ==> k.lockEvidence == k.stateBars >= 1 && (k.stateBars >= 2 ==> k.stateBars < c.lockConfirmBars))
    && (k.state != ChopLock ==> k.unlockEvidence == 0)
    && (k.state == ChopLock ==> k.unlockEvidence < c.unlockEvidenceBars && k.unlockEvidence <= k.stateBars)
    && (k.state == FailedBreakout ==> k.failedBars == k.stateBars >= 1 && (k.stateBars >= 2 ==> k.stateBars < c.failedBreakoutBars))
    && (k.state == TrendArmed ==> k.stateBars == 1)
  }

  /** In every run the direction is set exactly while a breakout is pending, armed, active or failed. */
  lemma {:induction false} RunStaysSane(c: Config, ticks: seq<Tick>)
    requires ValidConfig(c)
    ensures Sane(c, After(c, ticks))
    decreases |ticks|
  {
    if ticks != [] {
      RunStaysSane(c, ticks[..|ticks| - 1]);
      SaneStep(c, After(c, ticks[..|ticks| - 1]), ticks[|ticks| - 1]);
    }
  }

  lemma {:induction false} SaneStep(c: Config, k: Core, t: Tick)
    requires ValidConfig(c) && Sane(c, k)
    ensures Sane(c, Step(c, k, t))
  {
  }

  /** How many of the last states equal the last one. */
  function TrailingRun(c: Config, ticks: seq<Tick>): nat {
    if ticks == [] then 0
    else if |ticks| >= 2 && After(c, ticks).state == After(c, ticks[..|ticks| - 1]).state then TrailingRun(c, ticks[..|ticks| - 1]) + 1
    else 1
  }

  /** stateBars is the length of the current run of equal states. */
  lemma {:induction false} StateBarsIsRunLength(c: Config, ticks: seq<Tick>)
    ensures After(c, ticks).stateBars == TrailingRun(c, ticks)
    decreases |ticks|
  {
    hide Move;
    if ticks != [] {
      StateBarsIsRunLength(c, ticks[..|ticks| - 1]);
    }
  }

  /** Pending breakouts that failed. */
  function Failures(c: Config, ticks: seq<Tick>): nat {
    if ticks == [] then 0
    else
      var rest := ticks[..|ticks| - 1];
      Failures(c, rest) + if After(c, rest).state == BreakoutPending && After(c, ticks).state == FailedBreakout then 1 else 0
  }

  lemma {:induction false} FailedBreakoutsCountsFailures(c: Config, ticks: seq<Tick>)
    ensures After(c, ticks).failedBreakouts == Failures(c, ticks)
    decreases |ticks|
  {
    if ticks != [] {
      FailedBreakoutsCountsFailures(c, ticks[..|ticks| - 1]);
      FailureStep(c, After(c, ticks[..|ticks| - 1]), ticks[|ticks| - 1]);
    }
  }

  lemma {:induction false} FailureStep(c: Config, k: Core, t: Tick)
    ensures Step(c, k, t).failedBreakouts == k.failedBreakouts
         + if k.state == BreakoutPending && Step(c, k, t).state == FailedBreakout then 1 else 0
    ensures Step(c, k, t).state == FailedBreakout && k.state != FailedBreakout ==> k.state == BreakoutPending
  {
  }

  /**
   * The breakout that started at bar s: the range was frozen there, out of ChopLock and on
   * enough volume, and every close since lies outside it on the same side.
   */
  ghost predicate BreakoutFrom(c: Config, ticks: seq<Tick>, k: Core, s: nat) {
    && s < |ticks| && StateAt(c, ticks, s) == ChopLock
    && ticks[s].volumeRatio >= c.breakoutVolumeRatio
    && k.breakoutHigh == ticks[s].high && k.breakoutLow == ticks[s].low
    && (forall i :: s <= i < |ticks| ==> Outside(k.direction, k.breakoutHigh, k.breakoutLow, ticks[i].close))
    && forall i :: s < i < |ticks| ==> StateAt(c, ticks, i) == BreakoutPending
  }

  /** While pending and when armed, the breakout is exactly breakoutBars long. */
  lemma {:induction false} BreakoutIsAsLongAsItsCounter(c: Config, ticks: seq<Tick>)
    ensures var k := After(c, ticks);
            k.state == BreakoutPending || k.state == TrendArmed ==>
              1 <= k.breakoutBars <= |ticks| && BreakoutFrom(c, ticks, k, |ticks| - k.breakoutBars)
    decreases |ticks|
  {
    hide After, Step, StateAt;
    if ticks == [] {
      StartState(c);
    } else {
      var rest, t := ticks[..|ticks| - 1], ticks[|ticks| - 1];
      assert ticks == rest + [t];
      BreakoutIsAsLongAsItsCounter(c, rest);
      AfterSnoc(c, rest, t);
      StatesOfPrefix(c, rest, t);
      BreakoutStep(c, After(c, rest), t);
    }
  }

  lemma {:induction false} StartState(c: Config)
    ensures After(c, []) == START
  {
  }

  lemma {:induction false} BreakoutStep(c: Config, k: Core, t: Tick)
    ensures var next := Step(c, k, t);
            && (next.state == TrendArmed ==> k.state == BreakoutPending && t.supported && next.breakoutBars >= c.breakoutConfirmBars)
            && (next.state == BreakoutPending ==> k.state == BreakoutPending || k.state == ChopLock)
            && ((next.state == BreakoutPending || next.state == TrendArmed) && k.state == BreakoutPending ==>
                  && next.breakoutBars == k.breakoutBars + 1 && next.direction == k.direction
                  && next.breakoutHigh == k.breakoutHigh && next.breakoutLow == k.breakoutLow
                  && Outside(k.direction, k.breakoutHigh, k.breakoutLow, t.close))
            && (next.state == BreakoutPending && k.state == ChopLock ==>
                  && next.breakoutBars == 1 && next.breakoutHigh == t.high && next.breakoutLow == t.low && t.volumeRatio >= c.breakoutVolumeRatio
                  && Outside(next.direction, t.high, t.low, t.close))
  {
  }

  /**
   * A trend is armed only by a breakout out of ChopLock whose closes lay outside the same
   * frozen range on the same side for at least two and at least the configured bars.
   */
  lemma {:induction false} ArmedOnlyByConfirmedBreakout(c: Config, ticks: seq<Tick>)
    requires ValidConfig(c) && After(c, ticks).state == TrendArmed
    ensures var k := After(c, ticks);
            && k.breakoutBars >= 2 && k.breakoutBars >= c.breakoutConfirmBars && k.breakoutBars <= |ticks|
            && BreakoutFrom(c, ticks, k, |ticks| - k.breakoutBars)
            && ticks[|ticks| - 1].supported
  {
    hide After, Step, StateAt;
    if ticks == [] {
      StartState(c);
    } else {
      var rest, t := ticks[..|ticks| - 1], ticks[|ticks| - 1];
      assert ticks == rest + [t];
      BreakoutIsAsLongAsItsCounter(c, ticks);
      BreakoutIsAsLongAsItsCounter(c, rest);
      AfterSnoc(c, rest, t);
      BreakoutStep(c, After(c, rest), t);
    }
  }

  /** Consecutive dormant ticks at the end. */
  function DormantRun(ticks: seq<Tick>): nat {
    if ticks == [] || !ticks[|ticks| - 1].dormant then 0 else DormantRun(ticks[..|ticks| - 1]) + 1
  }

  /** While watching, the evidence is a run of dormant ticks at least as long as the watch. */
  lemma {:induction false} WatchIsDormantRun(c: Config, ticks: seq<Tick>)
    requires ValidConfig(c)
    ensures After(c, ticks).state == ChopWatch ==> DormantRun(ticks) >= After(c, ticks).lockEvidence
    decreases |ticks|
  {
    hide Step;
    if ticks != [] {
      var rest := ticks[..|ticks| - 1];
      WatchIsDormantRun(c, rest);
      RunStaysSane(c, rest);
      WatchStep(c, After(c, rest), ticks[|ticks| - 1]);
    }
  }

  lemma {:induction false} WatchStep(c: Config, k: Core, t: Tick)
    requires ValidConfig(c) && Sane(c, k)
    ensures Step(c, k, t).state == ChopWatch ==>
              t.dormant && Step(c, k, t).lockEvidence == (if k.state == ChopWatch then k.lockEvidence + 1 else 1)
    ensures k.state == ChopWatch && Step(c, k, t).state == ChopLock ==>
              t.dormant && k.lockEvidence + 1 >= c.lockConfirmBars && k.lockEvidence >= 1
  {
  }

  /** A watch turns into a lock only after at least two and at least the configured consecutive dormant ticks. */
  lemma {:induction false} LockNeedsDormantRun(c: Config, ticks: seq<Tick>, t: Tick)
    requires ValidConfig(c) && After(c, ticks).state == ChopWatch && After(c, ticks + [t]).state == ChopLock
    ensures DormantRun(ticks + [t]) >= 2 && DormantRun(ticks + [t]) >= c.lockConfirmBars
  {
    hide Step, After;
    AfterSnoc(c, ticks, t);
    WatchIsDormantRun(c, ticks);
    RunStaysSane(c, ticks);
    WatchStep(c, After(c, ticks), t);
    assert (ticks + [t])[..|ticks|] == ticks;
  }

  /** An active trend that has seen a tick that was not dormant. */
  predicate SawLively(c: Config, ticks: seq<Tick>) {
    if ticks == [] || After(c, ticks).state != TrendActive || After(c, ticks[..|ticks| - 1]).state != TrendActive then false
    else !ticks[|ticks| - 1].dormant || SawLively(c, ticks[..|ticks| - 1])
  }

  lemma {:induction false} LivelyEvidenceIsDormantRun(c: Config, ticks: seq<Tick>)
    requires ValidConfig(c)
    ensures SawLively(c, ticks) ==> After(c, ticks).state == TrendActive && After(c, ticks).lockEvidence == DormantRun(ticks)
    decreases |ticks|
  {
    hide Step;
    if SawLively(c, ticks) {
      var rest := ticks[..|ticks| - 1];
      LivelyEvidenceIsDormantRun(c, rest);
      ActiveStep(c, After(c, rest), ticks[|ticks| - 1]);
    }
  }

  lemma {:induction false} ActiveStep(c: Config, k: Core, t: Tick)
    requires k.state == TrendActive
    ensures Step(c, k, t).state == TrendActive ==> Step(c, k, t).lockEvidence == if t.dormant then k.lockEvidence + 1 else 0
    ensures Step(c, k, t).state == ChopLock <==> t.dormant && k.lockEvidence + 1 >= c.lockConfirmBars
    ensures Step(c, k, t).state == TrendActive || Step(c, k, t).state == ChopLock
  {
  }

  /** Once an active trend has been interrupted by a lively tick, locking again takes the configured dormant run. */
  lemma {:induction false} RelockNeedsDormantRunOnceLively(c: Config, ticks: seq<Tick>, t: Tick)
    requires ValidConfig(c) && SawLively(c, ticks)
    ensures After(c, ticks + [t]).state == ChopLock <==> DormantRun(ticks + [t]) >= c.lockConfirmBars
  {
    hide Step, After, SawLively;
    AfterSnoc(c, ticks, t);
    LivelyEvidenceIsDormantRun(c, ticks);
    ActiveStep(c, After(c, ticks), t);
    assert (ticks + [t])[..|ticks|] == ticks;
  }

  /** Whether an active trend locks only after the configured dormant run, in every run of the detector. */
  ghost predicate RelockAlwaysConfirmed(c: Config) {
    forall ticks, t :: After(c, ticks).state == TrendActive && After(c, ticks + [t]).state == ChopLock ==>
      DormantRun(ticks + [t]) >= c.lockConfirmBars
  }

  /**
   * Only a configuration that asks for a single bar always gets its dormant run before an
   * active trend locks: the evidence of the lock before the breakout is never cleared, and
   * counts again once the trend is active.
   */
  lemma {:induction false} RelockConfirmedExactlyForOneBar(c: Config)
    requires ValidConfig(c)
    ensures RelockAlwaysConfirmed(c) <==> c.lockConfirmBars == 1
  {
    hide After, Step;
    if c.lockConfirmBars == 1 {
      forall ticks, t | After(c, ticks).state == TrendActive && After(c, ticks + [t]).state == ChopLock
        ensures DormantRun(ticks + [t]) >= 1
      {
        AfterSnoc(c, ticks, t);
        ActiveStep(c, After(c, ticks), t);
      }
    } else {
      var ticks := RelockOnOneTick(c);
      assert DormantRun(ticks + [STILL]) < c.lockConfirmBars;
    }
  }

  const STILL := Tick(0.0, 1.0, -1.0, 0.0, true, false)

  /** A supported close above the range, with the volume to break out. */
  function BreakoutTick(c: Config): Tick {
    Tick(2.0, 1.0, -1.0, c.breakoutVolumeRatio, false, true)
  }

  /** For every configuration that asks for more bars, a run whose active trend locks on a single dormant tick. */
  lemma {:induction false} RelockOnOneTick(c: Config) returns (ticks: seq<Tick>)
    requires ValidConfig(c) && c.lockConfirmBars >= 2
    ensures After(c, ticks).state == TrendActive && After(c, ticks + [STILL]).state == ChopLock && DormantRun(ticks + [STILL]) == 1
  {
    hide After, Step;
    var locked := LockedRun(c, c.lockConfirmBars);
    var bars := if c.breakoutConfirmBars > 2 then c.breakoutConfirmBars else 2;
    var armed := BrokenOut(c, locked, bars);
    var out := BreakoutTick(c);
    AfterSnoc(c, armed, out);
    ticks := armed + [out];
    ArmedGoesActive(c, After(c, armed), out);
    AfterSnoc(c, ticks, STILL);
    ActiveStep(c, After(c, ticks), STILL);
    DormantOne(armed, out, STILL);
  }

  lemma {:induction false} ArmedGoesActive(c: Config, k: Core, t: Tick)
    requires k.state == TrendArmed
    ensures Step(c, k, t).state == TrendActive && Step(c, k, t).lockEvidence == k.lockEvidence
  {
  }

  /** n dormant ticks from the start: a watch of n bars, and the lock when n bars are asked for. */
  lemma {:induction false} LockedRun(c: Config, n: nat) returns (ticks: seq<Tick>)
    requires ValidConfig(c) && 1 <= n <= c.lockConfirmBars && c.lockConfirmBars >= 2
    ensures After(c, ticks).lockEvidence == n && After(c, ticks).state == if n < c.lockConfirmBars then ChopWatch else ChopLock
    decreases n
  {
    hide After;
    if n == 1 {
      StartState(c);
      AfterSnoc(c, [], STILL);
      ticks := [] + [STILL];
    } else {
      var rest := LockedRun(c, n - 1);
      AfterSnoc(c, rest, STILL);
      ticks := rest + [STILL];
    }
  }

  /** n breakout ticks out of a lock: pending for n bars, and armed when n bars are asked for; the evidence stays. */
  lemma {:induction false} BrokenOut(c: Config, locked: seq<Tick>, n: nat) returns (ticks: seq<Tick>)
    requires ValidConfig(c) && After(c, locked).state == ChopLock && 1 <= n && (n <= 2 || n <= c.breakoutConfirmBars)
    ensures var k := After(c, ticks);
            && k.lockEvidence == After(c, locked).lockEvidence && k.breakoutBars == n && k.direction == Long && k.breakoutHigh == 1.0
            && k.state == if n >= 2 && n >= c.breakoutConfirmBars then TrendArmed else BreakoutPending
    decreases n
  {
    hide After;
    var out := BreakoutTick(c);
    if n == 1 {
      AfterSnoc(c, locked, out);
      ticks := locked + [out];
    } else {
      var rest := BrokenOut(c, locked, n - 1);
      AfterSnoc(c, rest, out);
      ticks := rest + [out];
    }
  }

  lemma {:induction false} DormantOne(ticks: seq<Tick>, lively: Tick, still: Tick)
    requires !lively.dormant && still.dormant
    ensures DormantRun(ticks + [lively] + [still]) == 1
  {
  }

  // ----- what leaves every state, and when -----

  /** A close beyond the platform range on enough volume. */
  predicate VolumeBreakout(c: Config, t: Tick) {
    t.volumeRatio >= c.breakoutVolumeRatio && (t.close > t.high || t.close < t.low)
  }

  /** Consecutive ticks at the end that were not dormant and left the lock locked. */
  function LivelyRun(c: Config, ticks: seq<Tick>): nat {
    if ticks == [] || ticks[|ticks| - 1].dormant || After(c, ticks).state != ChopLock || After(c, ticks[..|ticks| - 1]).state != ChopLock then 0
    else LivelyRun(c, ticks[..|ticks| - 1]) + 1
  }

  lemma {:induction false} UnlockEvidenceIsLivelyRun(c: Config, ticks: seq<Tick>)
    requires ValidConfig(c)
    ensures After(c, ticks).state == ChopLock ==> After(c, ticks).unlockEvidence == LivelyRun(c, ticks)
    decreases |ticks|
  {
    hide Step;
    if ticks != [] {
      var rest := ticks[..|ticks| - 1];
      UnlockEvidenceIsLivelyRun(c, rest);
      RunStaysSane(c, rest);
      LockStep(c, After(c, rest), ticks[|ticks| - 1]);
    }
  }

  lemma {:induction false} LockStep(c: Config, k: Core, t: Tick)
    requires ValidConfig(c) && Sane(c, k)
    ensures Step(c, k, t).state == ChopLock ==>
              Step(c, k, t).unlockEvidence == if k.state == ChopLock && !t.dormant then k.unlockEvidence + 1 else 0
    ensures k.state == ChopLock ==>
              var next := Step(c, k, t);
              && (next.state == BreakoutPending <==> VolumeBreakout(c, t))
              && (next.state == Normal <==> !t.dormant && !VolumeBreakout(c, t) && k.unlockEvidence + 1 >= c.unlockEvidenceBars)
              && (next.state == BreakoutPending || next.state == Normal || next.state == ChopLock)
              && (next.state == BreakoutPending ==> next.direction == if t.close > t.high then Long else Short)
  {
  }

  /**
   * A lock breaks out exactly on a volume breakout, to the side of the close; it opens exactly
   * on a lively tick that is none and completes the configured run of lively ticks since the
   * lock began.  A dormant tick never opens it.
   */
  lemma {:induction false} LockLeavesExactly(c: Config, ticks: seq<Tick>, t: Tick)
    requires ValidConfig(c) && After(c, ticks).state == ChopLock
    ensures var next := After(c, ticks + [t]);
            && (next.state == BreakoutPending <==> t.volumeRatio >= c.breakoutVolumeRatio && (t.close > t.high || t.close < t.low))
            && (next.state == Normal <==>
                  && !t.dormant && !(t.volumeRatio >= c.breakoutVolumeRatio && (t.close > t.high || t.close < t.low))
                  && LivelyRun(c, ticks) + 1 >= c.unlockEvidenceBars)
            && (next.state == BreakoutPending || next.state == Normal || next.state == ChopLock)
            && (next.state == BreakoutPending ==> next.direction == if t.close > t.high then Long else Short)
            && (t.dormant ==> next.state != Normal)
  {
    hide Step, After, LivelyRun;
    AfterSnoc(c, ticks, t);
    RunStaysSane(c, ticks);
    UnlockEvidenceIsLivelyRun(c, ticks);
    LockStep(c, After(c, ticks), t);
  }

  lemma {:induction false} QuietStep(c: Config, k: Core, t: Tick)
    requires ValidConfig(c) && Sane(c, k)
    ensures k.state == Normal ==> Step(c, k, t).state == if t.dormant then ChopWatch else Normal
    ensures k.state == ChopWatch ==>
              Step(c, k, t).state == if !t.dormant then Normal else if k.stateBars + 1 >= c.lockConfirmBars then ChopLock else ChopWatch
    ensures k.state == TrendArmed ==> Step(c, k, t).state == TrendActive && Step(c, k, t).direction == k.direction
    ensures k.state == FailedBreakout ==>
              Step(c, k, t).state == if k.stateBars + 1 >= c.failedBreakoutBars then ChopLock else FailedBreakout
    ensures k.state == TrendActive ==> Step(c, k, t).state == ChopLock || (Step(c, k, t).state == TrendActive && Step(c, k, t).direction == k.direction)
    ensures k.state == TrendActive && !t.dormant ==> Step(c, k, t).state == TrendActive
  {
  }

  /**
   * A normal market is watched exactly on a dormant tick.  A watch ends in normal exactly on a
   * lively tick and in the lock exactly when it has lasted the configured dormant ticks, this one included.
   */
  lemma {:induction false} WatchLeavesExactly(c: Config, ticks: seq<Tick>, t: Tick)
    requires ValidConfig(c)
    ensures After(c, ticks).state == Normal ==> After(c, ticks + [t]).state == if t.dormant then ChopWatch else Normal
    ensures After(c, ticks).state == ChopWatch ==>
              && (After(c, ticks + [t]).state == Normal <==> !t.dormant)
              && (After(c, ticks + [t]).state == ChopLock <==> t.dormant && TrailingRun(c, ticks) + 1 >= c.lockConfirmBars)
              && (After(c, ticks + [t]).state == ChopWatch <==> t.dormant && TrailingRun(c, ticks) + 1 < c.lockConfirmBars)
  {
    hide Step, After, TrailingRun;
    AfterSnoc(c, ticks, t);
    RunStaysSane(c, ticks);
    StateBarsIsRunLength(c, ticks);
    QuietStep(c, After(c, ticks), t);
  }

  /**
   * A pending breakout fails exactly when a close comes back inside the frozen range, and is
   * armed exactly when the close stays out, the breakout has the configured length and is supported.
   */
  lemma {:induction false} PendingLeavesExactly(c: Config, ticks: seq<Tick>, t: Tick)
    requires ValidConfig(c) && After(c, ticks).state == BreakoutPending
    ensures var k, next := After(c, ticks), After(c, ticks + [t]);
            var out := if k.direction == Long then t.close > k.breakoutHigh else t.close < k.breakoutLow;
            && (k.direction == Long || k.direction == Short)
            && (next.state == FailedBreakout <==> !out)
            && (next.state == TrendArmed <==> out && t.supported && k.breakoutBars + 1 >= c.breakoutConfirmBars)
            && (next.state == BreakoutPending <==> out && !(t.supported && k.breakoutBars + 1 >= c.breakoutConfirmBars))
            && next.direction == k.direction
  {
    hide After;
    AfterSnoc(c, ticks, t);
    RunStaysSane(c, ticks);
  }

  /**
   * An armed trend is active one tick later in the same direction.  An active trend keeps its
   * direction until it locks, and no lively tick locks it.  A failed breakout goes back to the
   * lock exactly when it has lasted the configured ticks.
   */
  lemma {:induction false} TrendLeavesExactly(c: Config, ticks: seq<Tick>, t: Tick)
    requires ValidConfig(c)
    ensures var k, next := After(c, ticks), After(c, ticks + [t]);
            && (k.state == TrendArmed ==> next.state == TrendActive && next.direction == k.direction)
            && (k.state == TrendActive ==>
                  && (next.state == ChopLock || (next.state == TrendActive && next.direction == k.direction))
                  && (!t.dormant ==> next.state == TrendActive))
            && (k.state == FailedBreakout ==>
                  next.state == if TrailingRun(c, ticks) + 1 >= c.failedBreakoutBars then ChopLock else FailedBreakout)
  {
    hide Step, After, TrailingRun;
    AfterSnoc(c, ticks, t);
    RunStaysSane(c, ticks);
    StateBarsIsRunLength(c, ticks);
    QuietStep(c, After(c, ticks), t);
  }

  /** New positions are allowed freely when normal and only along the direction of an armed or active trend. */
  function Permissions(s: State, d: Direction): (r: (bool, bool, bool))
    ensures r.0 <==> r.1 || r.2
    ensures r.1 && r.2 <==> s == Normal
    ensures r.0 && s != Normal ==> (s == TrendArmed || s == TrendActive) && (r.1 <==> d == Long) && (r.2 <==> d == Short)
  {
    match s
    case Normal => (true, true, true)
    case TrendArmed => (d != NoDirection, d == Long, d == Short)
    case TrendActive => (d != NoDirection, d == Long, d == Short)
    case _ => (false, false, false)
  }

  // ----- the detector -----

  datatype PriceBar = PriceBar(close: real, high: real, low: real, volume: real)

  datatype Evidence = Evidence(available: bool, dormant: bool, momentum: Direction, macdAxisAtr: real, macdHistogramAtr: real)

  /** A parsed snapshot; the evidence of the higher intervals is already classified. */
  datatype Snapshot = Snapshot(bar: Option<PriceBar>, evidence: seq<Evidence>, referenceAtr: Option<real>, volumeRatio: real)

  function Supports(e: Evidence, d: Direction, c: Config): bool {
    e.available && e.momentum == d && e.macdAxisAtr > c.minBreakoutMacdAxisAtr && e.macdHistogramAtr > c.maxMacdHistogramAtr
  }

  method BreakoutSupported(evidence: seq<Evidence>, d: Direction, c: Config) returns (supported: bool)
    ensures supported <==> d != NoDirection && exists i :: 0 <= i < |evidence| && Supports(evidence[i], d, c)
  {
    if d == NoDirection {
      return false;
    }
    for i := 0 to |evidence|
      invariant forall k :: 0 <= k < i ==> !Supports(evidence[k], d, c)
    {
      if Supports(evidence[i], d, c) {
        return true;
      }
    }
    supported := false;
  }

  ghost predicate IsRange(bars: seq<PriceBar>, high: real, low: real) {
    && (forall i :: 0 <= i < |bars| ==> low <= bars[i].low && bars[i].high <= high)
    && (exists i :: 0 <= i < |bars| && bars[i].high == high) && exists i :: 0 <= i < |bars| && bars[i].low == low
  }

  /** Path length of the closes. */
  function Path(bars: seq<PriceBar>, n: nat): (r: real)
    requires 1 <= n <= |bars|
    ensures r >= 0.0
  {
    if n == 1 then 0.0 else Path(bars, n - 1) + Abs(bars[n - 1].close - bars[n - 2].close)
  }

  lemma {:induction false} NetMoveWithinPath(bars: seq<PriceBar>, n: nat)
    requires 1 <= n <= |bars|
    ensures Abs(bars[n - 1].close - bars[0].close) <= Path(bars, n)
    decreases n
  {
    if n > 1 {
      NetMoveWithinPath(bars, n - 1);
    }
  }

  /** The close of bar i does not go back on a way up, or on a way down. */
  ghost predicate Onward(bars: seq<PriceBar>, up: bool, i: nat)
    requires 1 <= i < |bars|
  {
    if up then bars[i - 1].close <= bars[i].close else bars[i].close <= bars[i - 1].close
  }

  /** Closes that only rise, or only fall, go the shortest way: the path is the net move. */
  lemma {:induction false} StraightPathIsNetMove(bars: seq<PriceBar>, up: bool, n: nat)
    requires 1 <= n <= |bars| && forall i :: 1 <= i < n ==> Onward(bars, up, i)
    ensures Path(bars, n) == if up then bars[n - 1].close - bars[0].close else bars[0].close - bars[n - 1].close
    decreases n
  {
    if n > 1 {
      StraightPathIsNetMove(bars, up, n - 1);
      assert Onward(bars, up, n - 1);
    }
  }

  /** The net move over the path: between zero and one, and zero when nothing moved. */
  function EfficiencyOf(bars: seq<PriceBar>): (r: real)
    requires bars != []
    ensures 0.0 <= r <= 1.0 && r * Path(bars, |bars|) == Abs(bars[|bars| - 1].close - bars[0].close)
    ensures Path(bars, |bars|) == 0.0 ==> r == 0.0
  {
    NetMoveWithinPath(bars, |bars|);
    var net, path := Abs(bars[|bars| - 1].close - bars[0].close), Path(bars, |bars|);
    if path == 0.0 then 0.0
    else
      QuotientWithinOne(net, path);
      net / path
  }

  method EfficiencyRatio(bars: seq<PriceBar>) returns (ratio: real)
    requires bars != []
    ensures ratio == EfficiencyOf(bars)
  {
    var path := 0.0;
    for index := 1 to |bars|
      invariant path == Path(bars, index)
    {
      path := path + Abs(bars[index].close - bars[index - 1].close);
    }
    if path == 0.0 {
      return 0.0;
    }
    ratio := Abs(bars[|bars| - 1].close - bars[0].close) / path;
  }

  lemma {:induction false} QuotientWithinOne(a: real, b: real)
    requires 0.0 <= a <= b && b > 0.0
    ensures 0.0 <= a / b <= 1.0 && a / b * b == a
  {
  }

  /** Enough quiet higher intervals in a tight range, or a local stall. */
  predicate IsDormant(c: Config, intervals: nat, efficiency: real, rangeAtr: real) {
    || (intervals >= c.minDormantIntervals && efficiency <= c.maxEfficiencyRatio && rangeAtr <= c.maxPlatformRangeAtr)
    || (efficiency <= c.stallMaxEfficiency && rangeAtr <= c.stallMaxRangeAtr)
  }

  /** The tick a snapshot turns into, given the direction so far and the platform range. */
  ghost predicate TickOf(c: Config, t: Tick, s: Snapshot, d: Direction, high: real, low: real, efficiency: real)
    requires s.bar.Some? && s.referenceAtr.Some? && s.referenceAtr.value > 0.0
  {
    && t.close == s.bar.value.close && t.volumeRatio == s.volumeRatio && t.high == high && t.low == low
    && (t.dormant <==> IsDormant(c, DormantCount(s.evidence), efficiency, (high - low) / s.referenceAtr.value))
    && (t.supported <==> d != NoDirection && exists i :: 0 <= i < |s.evidence| && Supports(s.evidence[i], d, c))
  }

  lemma {:induction false} TickFields(c: Config, t: Tick, s: Snapshot, d: Direction, high: real, low: real, efficiency: real)
    requires s.bar.Some? && s.referenceAtr.Some? && s.referenceAtr.value > 0.0 && TickOf(c, t, s, d, high, low, efficiency)
    ensures t.high == high && t.low == low
  {
  }

  datatype Report = Report(state: State, direction: Direction, allowNew: bool, allowLong: bool, allowShort: bool,
                           high: real, low: real, efficiency: real, failedBreakouts: nat, stateBars: nat)

  class Detector {
    const config: Config
    var state: State
    var direction: Direction
    var bars: seq<PriceBar>
    var stateBars: nat
    var lockEvidenceBars: nat
    var unlockEvidenceBars: nat
    var breakoutBars: nat
    var failedBars: nat
    var breakoutHigh: real
    var breakoutLow: real
    var failedBreakouts: nat
    ghost var seen: seq<PriceBar>
    ghost var ticks: seq<Tick>

    ghost function View(): Core
      reads this
    {
      Core(state, direction, stateBars, lockEvidenceBars, unlockEvidenceBars, breakoutBars, failedBars, breakoutHigh,
           breakoutLow, failedBreakouts)
    }

    /** The detector is the run of everything it has been fed and keeps one bar more than its window. */
    ghost predicate Valid()
      reads this
    {
      ValidConfig(config) && View() == After(config, ticks) && bars == Tail(seen, config.windowBars + 1)
    }

    constructor (config: Config)
      requires ValidConfig(config)
      ensures Valid() && this.config == config && seen == [] && ticks == []
    {
      this.config := config;
      state, direction, bars, stateBars := Normal, NoDirection, [], 0;
      lockEvidenceBars, unlockEvidenceBars, breakoutBars, failedBars := 0, 0, 0, 0;
      breakoutHigh, breakoutLow, failedBreakouts := 0.0, 0.0, 0;
      seen, ticks := [], [];
    }

    static method New(config: Config) returns (r: Option<Detector>)
      ensures r.Some? <==> ValidConfig(config)
      ensures r.Some? ==> fresh(r.value) && r.value.Valid() && r.value.config == config && r.value.ticks == []
    {
      if !ValidConfig(config) {
        return None;
      }
      var detector := new Detector(config);
      r := Some(detector);
    }

    method OutsideBreakout(close: real) returns (outside: bool)
      ensures outside <==> Outside(direction, breakoutHigh, breakoutLow, close)
    {
      outside := (direction == Long && close > breakoutHigh) || (direction == Short && close < breakoutLow);
    }

    method Transition(close: real, high: real, low: real, volumeRatio: real, dormant: bool, supported: bool)
      modifies `state, `direction, `stateBars, `lockEvidenceBars, `unlockEvidenceBars, `breakoutBars, `failedBars,
           `breakoutHigh, `breakoutLow, `failedBreakouts
      ensures View() == Step(config, old(View()), Tick(close, high, low, volumeRatio, dormant, supported))
    {
      var previous := state;
      match state {
        case Normal =>
          if dormant {
            lockEvidenceBars := lockEvidenceBars + 1;
            if lockEvidenceBars == 1 {
              state := ChopWatch;
            }
          }
        case ChopWatch =>
          if dormant {
            lockEvidenceBars := lockEvidenceBars + 1;
            if lockEvidenceBars >= config.lockConfirmBars {
              state := ChopLock;
            }
          } else {
            state, lockEvidenceBars := Normal, 0;
          }
        case ChopLock =>
          if volumeRatio >= config.breakoutVolumeRatio && (close > high || close < low) {
            state := BreakoutPending;
            breakoutHigh, breakoutLow := high, low;
            breakoutBars, unlockEvidenceBars := 1, 0;
            direction := if close > high then Long else Short;
          } else if !dormant {
            unlockEvidenceBars := unlockEvidenceBars + 1;
            if unlockEvidenceBars >= config.unlockEvidenceBars {
              state, direction, lockEvidenceBars, unlockEvidenceBars := Normal, NoDirection, 0, 0;
            }
          } else {
            unlockEvidenceBars := 0;
          }
        case BreakoutPending =>
          var outside := OutsideBreakout(close);
          if outside {
            breakoutBars := breakoutBars + 1;
            if breakoutBars >= config.breakoutConfirmBars && supported {
              state := TrendArmed;
            }
          } else {
            state, failedBars, breakoutBars := FailedBreakout, 1, 0;
            failedBreakouts := failedBreakouts + 1;
          }
        case TrendArmed =>
          state := TrendActive;
        case TrendActive =>
          if dormant {
            lockEvidenceBars := lockEvidenceBars + 1;
            if lockEvidenceBars >= config.lockConfirmBars {
              state, direction := ChopLock, NoDirection;
              lockEvidenceBars := 0;
            }
          } else {
            lockEvidenceBars := 0;
          }
        case FailedBreakout =>
          failedBars := failedBars + 1;
          if failedBars >= config.failedBreakoutBars {
            state, direction, failedBars := ChopLock, NoDirection, 0;
          }
      }
      stateBars := if state == previous then stateBars + 1 else 1;
    }

    /** The high and low of the last full window, before the current bar joins it. */
    method PlatformRange() returns (high: real, low: real, found: bool)
      requires Valid()
      ensures found <==> |seen| >= config.windowBars
      ensures found ==> IsRange(Tail(seen, config.windowBars), high, low)
    {
      if |bars| < config.windowBars {
        return 0.0, 0.0, false;
      }
      var window := bars[|bars| - config.windowBars..];
      assert window == Tail(seen, config.windowBars);
      high, low := RangeOf(window);
      found := true;
    }

    /**
     * One closed bar.  Nothing moves before the window is full or without a reference ATR;
     * otherwise exactly one transition is made, against the range of the bars before.
     */
    method Update(snapshot: Snapshot) returns (report: Option<Report>, failed: bool)
      requires Valid()
      modifies this
      ensures Valid()
      ensures seen == old(seen) + (if snapshot.bar.Some? then [snapshot.bar.value] else [])
      ensures failed <==>
                || snapshot.bar.None?
                || (|old(seen)| >= config.windowBars && (snapshot.referenceAtr.None? || snapshot.referenceAtr.value <= 0.0))
      ensures report.Some? <==> !failed && |old(seen)| >= config.windowBars
      ensures report.None? ==> ticks == old(ticks)
      ensures report.Some? ==>
                var r := report.value;
                && |ticks| == |old(ticks)| + 1 && ticks[..|old(ticks)|] == old(ticks)
                && IsRange(Tail(old(seen), config.windowBars), r.high, r.low)
                && r.efficiency == EfficiencyOf(Tail(seen, config.windowBars + 1))
                && TickOf(config, ticks[|old(ticks)|], snapshot, old(direction), r.high, r.low, r.efficiency)
                && (r.state, r.direction, r.failedBreakouts, r.stateBars) == (state, direction, failedBreakouts, stateBars)
                && (r.allowNew, r.allowLong, r.allowShort) == Permissions(state, direction)
    {
      hide Step, After, IsRange, TickOf, EfficiencyOf;
      report, failed := None, true;
      if snapshot.bar.None? {
        return;
      }
      var bar := snapshot.bar.value;
      var high, low, hasPlatform := PlatformRange();
      Join(bar);
      if !hasPlatform || |bars| < config.windowBars + 1 {
        failed := false;
        return;
      }
      if snapshot.referenceAtr.None? || snapshot.referenceAtr.value <= 0.0 {
        return;
      }
      failed := false;
      var t, efficiency := Classify(snapshot, high, low);
      TickFields(config, t, snapshot, direction, high, low, efficiency);
      AfterSnoc(config, ticks, t);
      Transition(t.close, high, low, t.volumeRatio, t.dormant, t.supported);
      ticks := ticks + [t];
      var permissions := Permissions(state, direction);
      report := Some(Report(state, direction, permissions.0, permissions.1, permissions.2, high, low, efficiency, failedBreakouts, stateBars));
    }

    method Classify(snapshot: Snapshot, high: real, low: real) returns (t: Tick, efficiency: real)
      requires |bars| >= config.windowBars + 1 && snapshot.bar.Some? && snapshot.referenceAtr.Some? && snapshot.referenceAtr.value > 0.0
      ensures efficiency == EfficiencyOf(bars[|bars| - config.windowBars - 1..]) && TickOf(config, t, snapshot, direction, high, low, efficiency)
    {
      hide DormantCount, EfficiencyOf;
      var dormantIntervals := CountDormant(snapshot.evidence);
      var window := bars[|bars| - config.windowBars - 1..];
      efficiency := EfficiencyRatio(window);
      var rangeAtr := (high - low) / snapshot.referenceAtr.value;
      var higherTimeframeDormant := dormantIntervals >= config.minDormantIntervals && efficiency <= config.maxEfficiencyRatio
           && rangeAtr <= config.maxPlatformRangeAtr;
      var localStall := efficiency <= config.stallMaxEfficiency && rangeAtr <= config.stallMaxRangeAtr;
      var supported := BreakoutSupported(snapshot.evidence, direction, config);
      t := Tick(snapshot.bar.value.close, high, low, snapshot.volumeRatio, higherTimeframeDormant || localStall, supported);
    }

    method Join(bar: PriceBar)
      requires bars == Tail(seen, config.windowBars + 1)
      modifies `bars, `seen
      ensures bars == Tail(seen, config.windowBars + 1) && seen == old(seen) + [bar]
    {
      TailSnoc(seen, config.windowBars + 1, bar);
      bars := bars + [bar];
      if |bars| > config.windowBars + 1 {
        bars := bars[|bars| - config.windowBars - 1..];
      }
      seen := seen + [bar];
    }
  }

  function DormantCount(evidence: seq<Evidence>): nat {
    if evidence == [] then 0
    else
      var e := evidence[|evidence| - 1];
      DormantCount(evidence[..|evidence| - 1]) + if e.available && e.dormant then 1 else 0
  }

  lemma {:induction false} DormantCountIsCardinality(evidence: seq<Evidence>)
    ensures DormantCount(evidence) == |set i | 0 <= i < |evidence| && evidence[i].available && evidence[i].dormant|
    decreases |evidence|
  {
    if evidence != [] {
      var n := |evidence| - 1;
      DormantCountIsCardinality(evidence[..n]);
      var before, now := set i | 0 <= i < n && evidence[..n][i].available && evidence[..n][i].dormant,
                         set i | 0 <= i < |evidence| && evidence[i].available && evidence[i].dormant;
      assert now == before + if evidence[n].available && evidence[n].dormant then {n} else {};
    }
  }

  /**
   * What a tick says of its snapshot.  It is dormant when enough available intervals are and
   * the window is inefficient and narrow, or when the window alone is very much so; it is
   * supported when an available interval moves the same way, far enough from its axis.
   */
  lemma {:induction false} TickMeans(c: Config, t: Tick, s: Snapshot, d: Direction, high: real, low: real, efficiency: real)
    requires s.bar.Some? && s.referenceAtr.Some? && s.referenceAtr.value > 0.0 && TickOf(c, t, s, d, high, low, efficiency)
    ensures t.close == s.bar.value.close && t.high == high && t.low == low && t.volumeRatio == s.volumeRatio
    ensures var dormant, range := |set i | 0 <= i < |s.evidence| && s.evidence[i].available && s.evidence[i].dormant|, (high - low) / s.referenceAtr.value;
            t.dormant <==> (dormant >= c.minDormantIntervals && efficiency <= c.maxEfficiencyRatio && range <= c.maxPlatformRangeAtr)
                           || (efficiency <= c.stallMaxEfficiency && range <= c.stallMaxRangeAtr)
    ensures t.supported <==> (d == Long || d == Short)
                             && exists i :: 0 <= i < |s.evidence| && s.evidence[i].available && s.evidence[i].momentum == d
                                            && s.evidence[i].macdAxisAtr > c.minBreakoutMacdAxisAtr
                                            && s.evidence[i].macdHistogramAtr > c.maxMacdHistogramAtr
  {
    DormantCountIsCardinality(s.evidence);
  }

  method CountDormant(evidence: seq<Evidence>) returns (n: nat)
    ensures n == DormantCount(evidence)
  {
    n := 0;
    for i := 0 to |evidence|
      invariant n == DormantCount(evidence[..i])
    {
      assert evidence[..i + 1][..i] == evidence[..i];
      if evidence[i].available && evidence[i].dormant {
        n := n + 1;
      }
    }
    assert evidence[..|evidence|] == evidence;
  }

  method RangeOf(window: seq<PriceBar>) returns (high: real, low: real)
    requires window != []
    ensures IsRange(window, high, low)
  {
    hide IsRange;
    high, low := window[0].high, window[0].low;
    OneBarRange(window[0]);
    assert window[..1] == [window[0]];
    for i := 1 to |window|
      invariant IsRange(window[..i], high, low)
    {
      RangeSnoc(window[..i], high, low, window[i]);
      assert window[..i + 1] == window[..i] + [window[i]];
      high, low := Max(high, window[i].high), Min(low, window[i].low);
    }
    assert window[..|window|] == window;
  }

  lemma {:induction false} OneBarRange(b: PriceBar)
    ensures IsRange([b], b.high, b.low)
  {
    assert [b][0] == b;
  }

  lemma {:induction false} RangeSnoc(bars: seq<PriceBar>, high: real, low: real, b: PriceBar)
    requires IsRange(bars, high, low)
    ensures IsRange(bars + [b], Max(high, b.high), Min(low, b.low))
  {
    var all := bars + [b];
    var i :| 0 <= i < |bars| && bars[i].high == high;
    var j :| 0 <= j < |bars| && bars[j].low == low;
    assert all[i] == bars[i] && all[j] == bars[j] && all[|bars|] == b;
  }
}
