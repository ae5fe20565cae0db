/**
 * Data quality of a list of klines: the verdict of a full rescan, and the counts from which
 * the same verdict can be given.
 */
module DataQuality {
  import opened Numeric

  /** A kline with its texts parsed; empty texts parse to zero, None is a text that is not a number. */
  datatype Kline = Kline(open: Option<real>, high: Option<real>, low: Option<real>, close: Option<real>, volume: Option<real>,
                         openTime: int, closeTime: int, closed: bool)

  datatype Reason = InvalidOpen | InvalidHigh | InvalidLow | InvalidClose | InvalidVolume | PriceOutOfRange | InvalidTimeRange | InvalidOhlc

  datatype Verdict = Invalid(reason: Reason) | NonContiguous | ZeroVolume | Insufficient | Fine

  predicate Parsed(k: Kline) {
    k.open.Some? && k.high.Some? && k.low.Some? && k.close.Some? && k.volume.Some?
  }

  predicate BadPrices(open: real, high: real, low: real, close: real) {
    high < low || open > high || open < low || close > high || close < low
  }

  predicate BadTimes(k: Kline) {
    k.closeTime > 0 && k.closeTime < k.openTime
  }

  predicate KlineInvalid(k: Kline, open: real, high: real, low: real, close: real) {
    BadPrices(open, high, low, close) || BadTimes(k)
  }

  predicate HaveGap(previous: Kline, current: Kline) {
    previous.closeTime > 0 && current.openTime != previous.closeTime + 1
  }

  // ----- the rescan -----

  function ProblemOf(k: Kline): Option<Reason> {
    if k.open.None? then Some(InvalidOpen)
    else if k.high.None? then Some(InvalidHigh)
    else if k.low.None? then Some(InvalidLow)
    else if k.close.None? then Some(InvalidClose)
    else if k.volume.None? then Some(InvalidVolume)
    else if BadPrices(k.open.value, k.high.value, k.low.value, k.close.value) then Some(PriceOutOfRange)
    else if BadTimes(k) then Some(InvalidTimeRange)
    else None
  }

  /** The problem of the first kline that has one. */
  function FirstProblem(klines: seq<Kline>, n: nat): (r: Option<Reason>)
    requires n <= |klines|
    ensures r.None? ==> forall i :: 0 <= i < n ==> ProblemOf(klines[i]).None?
  {
    if n == 0 then None
    else if FirstProblem(klines, n - 1).Some? then FirstProblem(klines, n - 1)
    else ProblemOf(klines[n - 1])
  }

  ghost predicate SomeGap(klines: seq<Kline>, n: nat)
    requires n <= |klines|
  {
    exists i :: 1 <= i < n && HaveGap(klines[i - 1], klines[i])
  }

  ghost predicate SomeZeroVolume(klines: seq<Kline>, n: nat)
    requires n <= |klines|
  {
    exists i :: 0 <= i < n && klines[i].volume == Some(0.0)
  }

  /** The verdict: a problem first, then gaps, then empty volume, then too few samples. */
  ghost function Assessed(klines: seq<Kline>, required: int): Verdict {
    if FirstProblem(klines, |klines|).Some? then Invalid(FirstProblem(klines, |klines|).value)
    else if SomeGap(klines, |klines|) then NonContiguous
    else if SomeZeroVolume(klines, |klines|) then ZeroVolume
    else if |klines| < required then Insufficient
    else Fine
  }

  method AssessDataQuality(klines: seq<Kline>, required: int) returns (v: Verdict)
    ensures v == Assessed(klines, required)
  {
    var hasGap, hasZeroVolume := false, false;
    for index := 0 to |klines|
      invariant FirstProblem(klines, index).None?
      invariant hasGap <==> SomeGap(klines, index)
      invariant hasZeroVolume <==> SomeZeroVolume(klines, index)
    {
      var problem := ProblemOf(klines[index]);
      if problem.Some? {
        ProblemStays(klines, index + 1, |klines|);
        return Invalid(problem.value);
      }
      if klines[index].volume.value == 0.0 {
        hasZeroVolume := true;
      }
      if index > 0 && HaveGap(klines[index - 1], klines[index]) {
        hasGap := true;
      }
    }
    v := if hasGap then NonContiguous else if hasZeroVolume then ZeroVolume else if |klines| < required then Insufficient else Fine;
  }

  lemma {:induction false} ProblemStays(klines: seq<Kline>, k: nat, n: nat)
    requires k <= n <= |klines| && FirstProblem(klines, k).Some?
    ensures FirstProblem(klines, n) == FirstProblem(klines, k)
    decreases n
  {
    hide ProblemOf;
    if k < n {
      ProblemStays(klines, k, n - 1);
    }
  }

  // ----- the verdict in prices and times -----

  /** Everything parsed, open and close inside the bar, and not closed before it opened. */
  ghost predicate Sound(k: Kline) {
    && k.open.Some? && k.high.Some? && k.low.Some? && k.close.Some? && k.volume.Some?
    && k.low.value <= k.open.value <= k.high.value && k.low.value <= k.close.value <= k.high.value
    && (k.closeTime <= 0 || k.openTime <= k.closeTime)
  }

  /** Kline i opens one millisecond after the one before closed, where that one has a closing time. */
  ghost predicate Adjoins(klines: seq<Kline>, i: nat)
    requires 1 <= i < |klines|
  {
    klines[i - 1].closeTime <= 0 || klines[i].openTime == klines[i - 1].closeTime + 1
  }

  /** A kline's problem is the first text that does not parse, then prices outside the bar, then the times. */
  lemma {:induction false} ProblemSays(k: Kline)
    ensures var p := ProblemOf(k);
            && (p == None <==> Sound(k))
            && (p == Some(InvalidOpen) <==> k.open.None?) && (p == Some(InvalidHigh) <==> k.open.Some? && k.high.None?)
            && (p == Some(InvalidLow) <==> k.open.Some? && k.high.Some? && k.low.None?)
            && (p == Some(InvalidClose) <==> k.open.Some? && k.high.Some? && k.low.Some? && k.close.None?)
            && (p == Some(InvalidVolume) <==> k.open.Some? && k.high.Some? && k.low.Some? && k.close.Some? && k.volume.None?)
            && (p == Some(InvalidTimeRange) <==> 0 < k.closeTime < k.openTime && Sound(k.(openTime := k.closeTime)))
            && p != Some(InvalidOhlc)
  {
  }

  lemma {:induction false} GapSays(klines: seq<Kline>, i: nat)
    requires 1 <= i < |klines|
    ensures HaveGap(klines[i - 1], klines[i]) <==> !Adjoins(klines, i)
  {
  }

  lemma {:induction false} FirstProblemSays(klines: seq<Kline>, n: nat)
    requires n <= |klines|
    ensures FirstProblem(klines, n).None? <==> forall i :: 0 <= i < n ==> Sound(klines[i])
    ensures FirstProblem(klines, n).Some? ==>
              exists i :: 0 <= i < n && ProblemOf(klines[i]) == FirstProblem(klines, n) && !Sound(klines[i]) && forall j :: 0 <= j < i ==> Sound(klines[j])
    decreases n
  {
    hide ProblemOf, Sound;
    if n > 0 {
      FirstProblemSays(klines, n - 1);
      ProblemSays(klines[n - 1]);
    }
  }

  lemma {:induction false} SomeGapSays(klines: seq<Kline>)
    ensures SomeGap(klines, |klines|) <==> exists i :: 1 <= i < |klines| && !Adjoins(klines, i)
  {
    hide HaveGap, Adjoins;
    if SomeGap(klines, |klines|) {
      var i :| 1 <= i < |klines| && HaveGap(klines[i - 1], klines[i]);
      GapSays(klines, i);
    } else if i :| 1 <= i < |klines| && !Adjoins(klines, i) {
      GapSays(klines, i);
      assert false;
    }
  }

  ghost predicate AllSound(klines: seq<Kline>) {
    forall i :: 0 <= i < |klines| ==> Sound(klines[i])
  }

  ghost predicate AllAdjoin(klines: seq<Kline>) {
    forall i :: 1 <= i < |klines| ==> Adjoins(klines, i)
  }

  /**
   * Every verdict, exactly: a kline that is not sound; sound klines with a gap; sound and
   * adjoining ones with an empty volume; sound, adjoining and traded but too few; or fine.
   */
  lemma {:induction false} VerdictSays(klines: seq<Kline>, required: int)
    ensures var v, traded := Assessed(klines, required), forall i :: 0 <= i < |klines| ==> klines[i].volume != Some(0.0);
            && (v.Invalid? <==> !AllSound(klines))
            && (v == NonContiguous <==> AllSound(klines) && !AllAdjoin(klines))
            && (v == ZeroVolume <==> AllSound(klines) && AllAdjoin(klines) && !traded)
            && (v == Insufficient <==> AllSound(klines) && AllAdjoin(klines) && traded && |klines| < required)
            && (v == Fine <==> AllSound(klines) && AllAdjoin(klines) && traded && |klines| >= required)
  {
    hide FirstProblem, SomeGap, Sound, Adjoins;
    FirstProblemSays(klines, |klines|);
    SomeGapSays(klines);
  }

  // ----- the counts -----

  datatype Counts = Counts(invalid: int, gaps: int, zeroVolume: int)

  predicate Broken(k: Kline) {
    ProblemOf(k).Some?
  }

  function InvalidCount(klines: seq<Kline>, n: nat): (r: nat)
    requires n <= |klines|
  {
    if n == 0 then 0 else InvalidCount(klines, n - 1) + if Broken(klines[n - 1]) then 1 else 0
  }

  function ZeroCount(klines: seq<Kline>, n: nat): (r: nat)
    requires n <= |klines|
  {
    if n == 0 then 0 else ZeroCount(klines, n - 1) + if klines[n - 1].volume == Some(0.0) then 1 else 0
  }

  /** Gaps between neighbours among the first n klines. */
  function GapCount(klines: seq<Kline>, n: nat): (r: nat)
    requires n <= |klines|
  {
    if n <= 1 then 0 else GapCount(klines, n - 1) + if HaveGap(klines[n - 2], klines[n - 1]) then 1 else 0
  }

  function Recount(klines: seq<Kline>): Counts {
    Counts(InvalidCount(klines, |klines|), GapCount(klines, |klines|), ZeroCount(klines, |klines|))
  }

  lemma {:induction false} CountsDecide(klines: seq<Kline>, n: nat)
    requires n <= |klines|
    ensures InvalidCount(klines, n) > 0 <==> FirstProblem(klines, n).Some?
    ensures GapCount(klines, n) > 0 <==> SomeGap(klines, n)
    ensures ZeroCount(klines, n) > 0 <==> SomeZeroVolume(klines, n)
    decreases n
  {
    hide ProblemOf, HaveGap;
    if n > 0 {
      CountsDecide(klines, n - 1);
    }
  }

  /** What the search for the first problem reports; every kline parses. */
  ghost function FoundProblem(klines: seq<Kline>): Verdict {
    Invalid(if FirstProblem(klines, |klines|).Some? then FirstProblem(klines, |klines|).value else InvalidOhlc)
  }

  /** The verdict from the counters alone, `found` being what a search reports if they call for one. */
  ghost function CountedVerdict(counts: Counts, count: nat, required: int, found: Verdict): Verdict {
    if counts.invalid > 0 then found
    else if counts.gaps > 0 then NonContiguous
    else if counts.zeroVolume > 0 then ZeroVolume
    else if count < required then Insufficient
    else Fine
  }

  /**
   * Counters that match the klines but for gaps counted too often give the verdict of a full
   * rescan exactly when there are no such gaps, or a problem or a real gap decides anyway.
   */
  lemma {:induction false} CountersGiveTheVerdict(klines: seq<Kline>, spurious: nat, required: int)
    ensures var counts := Recount(klines).(gaps := Recount(klines).gaps + spurious);
            CountedVerdict(counts, |klines|, required, FoundProblem(klines)) == Assessed(klines, required)
            <==> spurious == 0 || FirstProblem(klines, |klines|).Some? || SomeGap(klines, |klines|)
  {
    hide FirstProblem, InvalidCount, GapCount, ZeroCount, SomeGap, SomeZeroVolume;
    CountsDecide(klines, |klines|);
  }

  /** The first kline out of range in price or time; every kline parses. */
  method FirstSeriesQualityError(klines: seq<Kline>) returns (v: Verdict)
    requires forall i :: 0 <= i < |klines| ==> Parsed(klines[i])
    ensures v == FoundProblem(klines)
  {
    for index := 0 to |klines|
      invariant FirstProblem(klines, index).None?
    {
      var k := klines[index];
      if BadPrices(k.open.value, k.high.value, k.low.value, k.close.value) {
        ProblemStays(klines, index + 1, |klines|);
        return Invalid(PriceOutOfRange);
      }
      if BadTimes(k) {
        ProblemStays(klines, index + 1, |klines|);
        return Invalid(InvalidTimeRange);
      }
    }
    v := Invalid(InvalidOhlc);
  }

  // ----- how counts move -----

  /** One kline more. */
  lemma {:induction false} RecountSnoc(klines: seq<Kline>, k: Kline)
    ensures var c := Recount(klines);
            Recount(klines + [k])
            == Counts(c.invalid + (if Broken(k) then 1 else 0),
                      c.gaps + (if klines != [] && HaveGap(klines[|klines| - 1], k) then 1 else 0),
                      c.zeroVolume + if k.volume == Some(0.0) then 1 else 0)
  {
    hide Broken, HaveGap;
    CountsSame(klines, klines + [k], |klines|);
  }

  lemma {:induction false} CountsSame(a: seq<Kline>, b: seq<Kline>, n: nat)
    requires n <= |a| && n <= |b| && forall i :: 0 <= i < n ==> a[i] == b[i]
    ensures InvalidCount(a, n) == InvalidCount(b, n) && GapCount(a, n) == GapCount(b, n) && ZeroCount(a, n) == ZeroCount(b, n)
    decreases n
  {
    hide Broken, HaveGap;
    if n > 0 {
      CountsSame(a, b, n - 1);
    }
  }

  /** What dropping the first klines takes off: their own counts, and the gap that reaches out of them. */
  lemma {:induction false} RecountDrop(klines: seq<Kline>, drop: nat, n: nat)
    requires drop <= n <= |klines|
    ensures var rest := klines[drop..];
            && InvalidCount(rest, n - drop) == InvalidCount(klines, n) - InvalidCount(klines, drop)
            && ZeroCount(rest, n - drop) == ZeroCount(klines, n) - ZeroCount(klines, drop)
            && GapCount(rest, n - drop) == GapCount(klines, n) - GapCount(klines, if drop < n then drop + 1 else n)
    decreases n
  {
    hide Broken, HaveGap;
    if drop < n {
      RecountDrop(klines, drop, n - 1);
    }
  }

  /** Takes the first `drop` klines out of the counts. */
  method RemoveQualityPrefix(counts: Counts, klines: seq<Kline>, drop: nat) returns (r: Counts)
    requires forall i :: 0 <= i < |klines| ==> Parsed(klines[i])
    ensures var d := if drop > |klines| then |klines| else drop;
            r == Counts(counts.invalid - InvalidCount(klines, d), counts.gaps - GapCount(klines, if d < |klines| then d + 1 else d),
                        counts.zeroVolume - ZeroCount(klines, d))
  {
    var d := if drop > |klines| then |klines| else drop;
    var invalid, zeroVolume, gaps := counts.invalid, counts.zeroVolume, counts.gaps;
    for i := 0 to d
      invariant invalid == counts.invalid - InvalidCount(klines, i) && zeroVolume == counts.zeroVolume - ZeroCount(klines, i)
    {
      var k := klines[i];
      if KlineInvalid(k, k.open.value, k.high.value, k.low.value, k.close.value) {
        invalid := invalid - 1;
      }
      if k.volume.value == 0.0 {
        zeroVolume := zeroVolume - 1;
      }
    }
    var right := 1;
    while right <= d && right < |klines|
      invariant 1 <= right <= d + 1 && (right <= |klines| || d == 0)
      invariant gaps == counts.gaps - GapCount(klines, if right <= |klines| then right else 0)
    {
      if HaveGap(klines[right - 1], klines[right]) {
        gaps := gaps - 1;
      }
      right := right + 1;
    }
    r := Counts(invalid, gaps, zeroVolume);
  }
}
