/**
 * The calculation window: closed klines with their parsed series, quality counters and
 * rolling readings kept up to date bar by bar, and a preview of one more bar.
 */
module CalculationWindow {
  import opened Numeric
  import opened DataQuality
  import R = RollingWindow

  datatype Series = Series(opens: seq<real>, highs: seq<real>, lows: seq<real>, closes: seq<real>, volumes: seq<real>)

  const NOTHING := Series([], [], [], [], [])

  const CLEAN := Counts(0, 0, 0)

  /** The series are the parsed values of the klines. */
  ghost predicate Matches(s: Series, all: seq<Kline>) {
    && |s.opens| == |all| && |s.highs| == |all| && |s.lows| == |all| && |s.closes| == |all| && |s.volumes| == |all|
    && forall i :: 0 <= i < |all| ==>
         all[i] == all[i].(open := Some(s.opens[i]), high := Some(s.highs[i]), low := Some(s.lows[i]),
              close := Some(s.closes[i]), volume := Some(s.volumes[i]))
  }

  function Extended(s: Series, k: Kline): Series
    requires Parsed(k)
  {
    Series(s.opens + [k.open.value], s.highs + [k.high.value], s.lows + [k.low.value], s.closes + [k.close.value], s.volumes + [k.volume.value])
  }

  lemma {:induction false} MatchesSnoc(s: Series, all: seq<Kline>, k: Kline)
    requires Matches(s, all) && Parsed(k)
    ensures Matches(Extended(s, k), all + [k])
  {
  }

  lemma {:induction false} MatchedParse(s: Series, all: seq<Kline>)
    requires Matches(s, all)
    ensures forall i :: 0 <= i < |all| ==> Parsed(all[i])
  {
  }

  function TrimSeq<T>(values: seq<T>, drop: nat): seq<T> {
    if drop == 0 || |values| == 0 then values else if drop >= |values| then [] else values[drop..]
  }

  function Trimmed(s: Series, drop: nat): Series {
    Series(TrimSeq(s.opens, drop), TrimSeq(s.highs, drop), TrimSeq(s.lows, drop), TrimSeq(s.closes, drop), TrimSeq(s.volumes, drop))
  }

  lemma {:induction false} MatchesTrimmed(s: Series, all: seq<Kline>, drop: nat)
    requires Matches(s, all) && drop <= |all|
    ensures Matches(Trimmed(s, drop), all[drop..])
  {
  }

  /** At most `limit` klines are kept; a limit of zero or less keeps all. */
  function Kept(all: seq<Kline>, limit: int): (r: seq<Kline>)
    ensures limit > 0 ==> |r| <= limit
  {
    if limit > 0 && |all| > limit then all[|all| - limit..] else all
  }

  function ClosedOnly(klines: seq<Kline>): seq<Kline> {
    if klines == [] then []
    else
      var rest, k := ClosedOnly(klines[..|klines| - 1]), klines[|klines| - 1];
      if k.closed then rest + [k] else rest
  }

  lemma {:induction false} ClosedSnoc(klines: seq<Kline>, k: Kline)
    ensures ClosedOnly(klines + [k]) == if k.closed then ClosedOnly(klines) + [k] else ClosedOnly(klines)
    ensures ClosedOnly([]) == []
  {
  }

  /** The newest klines are kept: `limit` of them where there are more, all of them otherwise or without a limit. */
  lemma {:induction false} KeptAreNewest(all: seq<Kline>, limit: int)
    ensures |Kept(all, limit)| == if 0 < limit < |all| then limit else |all|
    ensures Kept(all, limit) == all[|all| - |Kept(all, limit)|..]
  {
  }

  /** Exactly the closed klines remain, each as often as it was there. */
  lemma {:induction false} ClosedRemain(klines: seq<Kline>, k: Kline)
    ensures multiset(ClosedOnly(klines))[k] == if k.closed then multiset(klines)[k] else 0
  {
    if klines != [] {
      var rest, last := klines[..|klines| - 1], klines[|klines| - 1];
      ClosedRemain(rest, k);
      assert klines == rest + [last];
      assert multiset(klines) == multiset(rest) + multiset{last};
    }
  }

  /** They stay in their order: what a list leaves is what its parts leave, one after the other. */
  lemma {:induction false} ClosedInOrder(a: seq<Kline>, b: seq<Kline>)
    ensures ClosedOnly(a + b) == ClosedOnly(a) + ClosedOnly(b)
    decreases |b|
  {
    hide ClosedOnly;
    if b != [] {
      var rest, last := b[..|b| - 1], b[|b| - 1];
      ClosedInOrder(a, rest);
      ClosedSnoc(a + rest, last);
      ClosedSnoc(rest, last);
      assert a + b == (a + rest) + [last] && b == rest + [last];
    } else {
      ClosedSnoc(a, Kline(None, None, None, None, None, 0, 0, false));
      assert a + b == a;
    }
  }

  ghost predicate AllParsed(klines: seq<Kline>) {
    forall i :: 0 <= i < |klines| ==> Parsed(klines[i])
  }

  /** A rolling window has been fed the series, possibly after values that a full window has dropped. */
  ghost predicate Feeds(fed: seq<real>, values: seq<real>, limit: int) {
    && |fed| >= |values| && fed[|fed| - |values|..] == values
    && (|fed| > |values| ==> 0 < limit <= |values|)
  }

  lemma {:induction false} FeedsSnoc(fed: seq<real>, values: seq<real>, limit: int, v: real)
    requires Feeds(fed, values, limit)
    ensures Feeds(fed + [v], values + [v], limit)
  {
  }

  /** Counters that are exact but for gaps counted too often. */
  ghost predicate Counted(q: Counts, all: seq<Kline>, spurious: nat) {
    q == Recount(all).(gaps := Recount(all).gaps + spurious)
  }

  function Contribution(q: Counts, all: seq<Kline>, index: nat): Counts
    requires index < |all| && Parsed(all[index])
  {
    Counts(q.invalid + (if Broken(all[index]) then 1 else 0),
           q.gaps + (if index > 0 && HaveGap(all[index - 1], all[index]) then 1 else 0),
           q.zeroVolume + if all[index].volume == Some(0.0) then 1 else 0)
  }

  lemma {:induction false} CountedSnoc(q: Counts, all: seq<Kline>, spurious: nat, k: Kline)
    requires Counted(q, all, spurious) && Parsed(k)
    ensures Counted(Contribution(q, all + [k], |all|), all + [k], spurious)
  {
    hide Broken, HaveGap, Recount;
    RecountSnoc(all, k);
  }

  /** The counters after the first `drop` klines leave a longer list. */
  lemma {:induction false} CountedDrop(q: Counts, all: seq<Kline>, spurious: nat, drop: nat, r: Counts)
    requires Counted(q, all, spurious) && drop < |all|
    requires r == Counts(q.invalid - InvalidCount(all, drop), q.gaps - GapCount(all, drop + 1), q.zeroVolume - ZeroCount(all, drop))
    ensures Counted(r, all[drop..], spurious)
  {
    hide InvalidCount, GapCount, ZeroCount;
    RecountDrop(all, drop, |all|);
  }

  /** What a window stands for: a pending preview hides the stored klines. */
  function Shown(klines: seq<Kline>, base: seq<Kline>, start: nat, pending: Option<Kline>): seq<Kline>
    requires start <= |base|
  {
    if pending.Some? then base[start..] + [pending.value] else klines
  }

  // ----- one kline into the series -----

  class Window {
    const limit: int
    const close20: R.RollingWindow
    const high20: R.RollingWindow
    const low20: R.RollingWindow
    var klines: seq<Kline>
    var series: Series
    var parseErr: bool
    var quality: Counts
    var previewBase: seq<Kline>
    var previewBaseStart: nat
    var previewKline: Option<Kline>
    ghost var spurious: nat

    /** The klines the window stands for, a pending preview included. */
    ghost function All(): seq<Kline>
      reads `klines, `previewBase, `previewBaseStart, `previewKline
      requires previewBaseStart <= |previewBase|
    {
      Shown(klines, previewBase, previewBaseStart, previewKline)
    }

    ghost predicate Rolling()
      reads close20, high20, low20
    {
      && close20 != high20 && close20 != low20 && high20 != low20
      && close20.Valid() && high20.Valid() && low20.Valid()
      && close20.period == 20 && high20.period == 20 && low20.period == 20
    }

    ghost predicate Fed()
      reads `series, close20, high20, low20
    {
      Feeds(close20.fed, series.closes, limit) && Feeds(high20.fed, series.highs, limit) && Feeds(low20.fed, series.lows, limit)
    }

    /** Without a parse error outstanding everything is that of the given klines. */
    ghost predicate Consistent(all: seq<Kline>)
      reads this, close20, high20, low20
    {
      !parseErr ==> Matches(series, all) && Counted(quality, all, spurious) && Fed()
    }

    /** What holds of every window, whatever was reset under a pending preview. */
    ghost predicate Sane()
      reads close20, high20, low20, `previewBase, `previewBaseStart
    {
      Rolling() && previewBaseStart <= |previewBase|
    }

    ghost predicate Valid()
      reads this, close20, high20, low20
    {
      && Sane() && Consistent(All()) && (limit > 0 ==> |All()| <= limit)
    }

    constructor (limit: int)
      ensures Valid() && fresh(close20) && fresh(high20) && fresh(low20)
      ensures this.limit == limit && All() == [] && !parseErr && spurious == 0
    {
      this.limit := limit;
      close20 := new R.RollingWindow(20);
      high20 := new R.RollingWindow(20);
      low20 := new R.RollingWindow(20);
      klines, series, parseErr, quality := [], NOTHING, false, CLEAN;
      previewBase, previewBaseStart, previewKline, spurious := [], 0, None, 0;
    }

    constructor Copy(w: Window, close: R.RollingWindow, high: R.RollingWindow, low: R.RollingWindow, klines: seq<Kline>)
      ensures limit == w.limit && close20 == close && high20 == high && low20 == low && this.klines == klines
      ensures series == w.series && parseErr == w.parseErr && quality == w.quality && spurious == w.spurious
      ensures previewBase == [] && previewBaseStart == 0 && previewKline == None
    {
      limit, close20, high20, low20, this.klines := w.limit, close, high, low, klines;
      series, parseErr, quality, spurious := w.series, w.parseErr, w.quality, w.spurious;
      previewBase, previewBaseStart, previewKline := [], 0, None;
    }

    /** Turns a pending preview into stored klines. */
    method Materialize()
      requires Sane()
      modifies `klines, `previewBase, `previewBaseStart, `previewKline
      ensures Sane() && All() == old(All()) && previewKline == None && klines == All()
      ensures old(Valid()) ==> Valid()
    {
      hide Matches, Counted, Feeds, R.RollingWindow.Valid;
      if previewKline.None? {
        return;
      }
      klines := previewBase[previewBaseStart..] + [previewKline.value];
      previewBase, previewBaseStart, previewKline := [], 0, None;
    }

    /** The quality of one stored kline joins the counters; an index without a stored kline adds nothing. */
    method AppendQuality(index: nat)
      requires index < |klines| ==> Parsed(klines[index])
      modifies `quality
      ensures quality == if index < |klines| then Contribution(old(quality), klines, index) else old(quality)
    {
      if index >= |klines| {
        return;
      }
      var k := klines[index];
      var q := quality;
      if KlineInvalid(k, k.open.value, k.high.value, k.low.value, k.close.value) {
        q := q.(invalid := q.invalid + 1);
      }
      if k.volume.value == 0.0 {
        q := q.(zeroVolume := q.zeroVolume + 1);
      }
      if index > 0 && HaveGap(klines[index - 1], k) {
        q := q.(gaps := q.gaps + 1);
      }
      quality := q;
    }

    /** A kline that parses joins the series, the counters and the rolling windows; any other raises the parse error. */
    method AppendSeries(k: Kline)
      requires Rolling()
      requires |series.closes| < |klines| ==> klines[|series.closes|] == k
      modifies `series, `parseErr, `quality, close20, high20, low20
      ensures Rolling()
      ensures !Parsed(k) ==>
                && parseErr && series == old(series) && quality == old(quality)
                && close20.fed == old(close20.fed) && high20.fed == old(high20.fed) && low20.fed == old(low20.fed)
      ensures Parsed(k) ==>
                && parseErr == old(parseErr) && series == Extended(old(series), k)
                && quality == (if |old(series).closes| < |klines| then Contribution(old(quality), klines,
                  |old(series).closes|) else old(quality))
                && close20.fed == old(close20.fed) + [k.close.value] && high20.fed == old(high20.fed) + [k.high.value]
                  && low20.fed == old(low20.fed) + [k.low.value]
    {
      hide R.RollingWindow.Valid, Contribution;
      if k.open.None? || k.high.None? || k.low.None? || k.close.None? || k.volume.None? {
        parseErr := true;
        return;
      }
      AppendQuality(|series.closes|);
      series := Extended(series, k);
      close20.Append(k.close.value);
      high20.Append(k.high.value);
      low20.Append(k.low.value);
    }

    /** The loop body for one closed kline. */
    method AppendOne(k: Kline)
      requires Rolling() && previewKline.None? && Consistent(klines)
      modifies `klines, `series, `parseErr, `quality, close20, high20, low20
      ensures Rolling() && Consistent(klines) && klines == old(klines) + [k]
      ensures parseErr <==> old(parseErr) || !Parsed(k)
      ensures !parseErr ==> series == Extended(old(series), k)
                            && close20.fed == old(close20.fed) + [k.close.value]
                              && high20.fed == old(high20.fed) + [k.high.value] && low20.fed == old(low20.fed) + [k.low.value]
    {
      hide Counted, Feeds, R.RollingWindow.Valid, Contribution, Extended, Matches;
      if !parseErr {
        SeriesLength(series, klines);
        if Parsed(k) {
          MatchesSnoc(series, klines, k);
          CountedSnoc(quality, klines, spurious, k);
          ExtendedFields(series, k);
          FeedsSnoc(close20.fed, series.closes, limit, k.close.value);
          FeedsSnoc(high20.fed, series.highs, limit, k.high.value);
          FeedsSnoc(low20.fed, series.lows, limit, k.low.value);
        }
      }
      klines := klines + [k];
      if !parseErr {
        AppendSeries(k);
      }
    }

    /** Drops the oldest klines beyond the limit from everything that still matches them. */
    method Trim()
      requires Rolling() && previewKline.None? && Consistent(klines)
      modifies `klines, `series, `quality
      ensures Rolling() && klines == Kept(old(klines), limit) && Consistent(klines)
    {
      hide Counted, Feeds, R.RollingWindow.Valid, Matches, Trimmed;
      if limit <= 0 || |klines| <= limit {
        NothingTrimmed(series);
        return;
      }
      var drop := |klines| - limit;
      var rest := TrimQuality(drop);
      var shorter := Trimmed(series, drop);
      if !parseErr {
        MatchesTrimmed(series, klines, drop);
        FeedsAllTrimmed(close20.fed, high20.fed, low20.fed, series, klines, limit);
      }
      klines, series, quality := klines[|klines| - limit..], shorter, rest;
    }

    /** The counters of what is left; nothing is taken off while an error is outstanding. */
    method TrimQuality(drop: nat) returns (rest: Counts)
      requires Consistent(klines) && drop < |klines|
      ensures parseErr ==> rest == quality
      ensures !parseErr ==> Counted(rest, klines[drop..], spurious)
    {
      hide Counted, Feeds, Matches;
      if parseErr {
        return quality;
      }
      MatchedParse(series, klines);
      rest := RemoveQualityPrefix(quality, klines, drop);
      CountedDrop(quality, klines, spurious, drop, rest);
    }

    /** Starts over from the stored klines; the error is outstanding exactly when one of them does not parse. */
    method RebuildSeries()
      requires Rolling()
      modifies `series, `parseErr, `quality, `spurious, close20, high20, low20
      ensures Rolling() && Consistent(klines) && spurious == 0
      ensures parseErr <==> !AllParsed(klines)
      ensures !parseErr ==> close20.fed == series.closes && high20.fed == series.highs && low20.fed == series.lows
    {
      hide Counted, Feeds, R.RollingWindow.Valid, Contribution, Extended;
      close20.Clear();
      high20.Clear();
      low20.Clear();
      series, parseErr, quality, spurious := NOTHING, false, CLEAN, 0;
      NothingCounted(klines, limit);
      for index := 0 to |klines|
        invariant Rolling() && !parseErr && spurious == 0
        invariant Matches(series, klines[..index]) && Counted(quality, klines[..index], 0)
        invariant close20.fed == series.closes && high20.fed == series.highs && low20.fed == series.lows
      {
        SeriesLength(series, klines[..index]);
        if Parsed(klines[index]) {
          OneMoreMatched(series, quality, klines, index);
        }
        AppendSeries(klines[index]);
        if parseErr {
          return;
        }
      }
      FeedsItself(series.closes, limit);
      FeedsItself(series.highs, limit);
      FeedsItself(series.lows, limit);
      assert klines[..|klines|] == klines;
      MatchedParse(series, klines);
    }

    /** Only closed klines enter; what is kept is the newest of old and new. */
    method Append(added: seq<Kline>)
      requires Valid()
      modifies this, close20, high20, low20
      ensures Valid() && previewKline == None && All() == Kept(old(All()) + ClosedOnly(added), limit)
      ensures old(parseErr) || !AllParsed(ClosedOnly(added)) ==> (parseErr <==> !AllParsed(All()))
      ensures !old(parseErr) && AllParsed(ClosedOnly(added)) ==> !parseErr && spurious == old(spurious)
      ensures old(parseErr) || !AllParsed(ClosedOnly(added)) ==> spurious == 0
    {
      hide Counted, Feeds, R.RollingWindow.Valid, Matches, Kept;
      Materialize();
      ghost var before := klines;
      AppendAll(added);
      FitsLimit(before + ClosedOnly(added), limit);
      Trim();
      if parseErr {
        RebuildSeries();
      }
    }

    method AppendAll(added: seq<Kline>)
      requires Rolling() && previewKline.None? && Consistent(klines)
      modifies `klines, `series, `parseErr, `quality, close20, high20, low20
      ensures Rolling() && Consistent(klines) && klines == old(klines) + ClosedOnly(added)
      ensures parseErr <==> old(parseErr) || !AllParsed(ClosedOnly(added))
    {
      hide Counted, Feeds, R.RollingWindow.Valid, Matches, Parsed, ClosedOnly;
      assert added[..0] == [];
      NoKlinesClosed();
      for i := 0 to |added|
        invariant Rolling() && Consistent(klines) && klines == old(klines) + ClosedOnly(added[..i])
        invariant parseErr <==> old(parseErr) || !AllParsed(ClosedOnly(added[..i]))
      {
        assert added[..i + 1] == added[..i] + [added[i]];
        ClosedSnoc(added[..i], added[i]);
        if added[i].closed {
          ParsedSnoc(ClosedOnly(added[..i]), added[i]);
          AppendOne(added[i]);
        }
      }
      assert added[..|added|] == added;
    }

    /**
     * Starts over with the newest closed klines.  A pending preview is left pending: it goes
     * on hiding the stored klines, while series and counters are those of the stored ones.
     * (The trim also drops from series and counters, which the rebuild then starts afresh.)
     */
    method Reset(all: seq<Kline>)
      requires Sane()
      modifies `klines, `series, `parseErr, `quality, `spurious, close20, high20, low20
      ensures Sane() && klines == Kept(ClosedOnly(all), limit) && Consistent(klines) && spurious == 0
      ensures parseErr <==> !AllParsed(klines)
      ensures !parseErr ==> quality == Recount(klines)
      ensures previewKline.None? ==> Valid() && All() == klines
    {
      hide Counted, Feeds, R.RollingWindow.Valid, Matches, Kept, ClosedOnly;
      var kept := KeepClosed(all);
      FitsLimit(kept, limit);
      klines := KeepNewest(kept, limit);
      RebuildSeries();
      NoneSpurious(quality, klines);
    }

    /**
     * The verdict of the counters.  On a consistent window without a parse error outstanding
     * it is that of a full rescan exactly when no gap was counted too often, or a problem or
     * a real gap decides anyway.  The search for a problem reads the series of every kline.
     */
    method AssessQuality(required: int) returns (v: Verdict)
      requires Sane() && (quality.invalid > 0 ==> Valid() && !parseErr)
      modifies `klines, `previewBase, `previewBaseStart, `previewKline
      ensures Sane() && All() == old(All()) && (old(Valid()) ==> Valid())
      ensures v == CountedVerdict(quality, |All()|, required, FoundProblem(All()))
      ensures old(Valid()) && !parseErr ==>
                (v == Assessed(All(), required) <==> spurious == 0 || FirstProblem(All(), |All()|).Some? || SomeGap(All(), |All()|))
    {
      hide Feeds, R.RollingWindow.Valid, Matches, Assessed, FirstProblem, Recount, SomeGap;
      CountersGiveTheVerdict(All(), spurious, required);
      if quality.invalid > 0 {
        Materialize();
        MatchedParse(series, klines);
        v := FirstSeriesQualityError(klines);
        return;
      }
      v := if quality.gaps > 0 then NonContiguous else if quality.zeroVolume > 0 then ZeroVolume
           else if KlineCount() < required then Insufficient else Fine;
    }

    function KlineCount(): (r: int)
      requires previewBaseStart <= |previewBase|
      reads this
      ensures r == |All()|
    {
      if previewKline.Some? then |previewBase| - previewBaseStart + 1 else |klines|
    }

    method Clone() returns (w: Window)
      requires Valid()
      modifies `klines, `previewBase, `previewBaseStart, `previewKline
      ensures Valid() && All() == old(All())
      ensures fresh(w) && fresh(w.close20) && fresh(w.high20) && fresh(w.low20) && w.Valid()
      ensures w.limit == limit && w.All() == All() && w.series == series && w.parseErr == parseErr && w.quality == quality
           && w.spurious == spurious
      ensures w.close20.fed == close20.fed && w.high20.fed == high20.fed && w.low20.fed == low20.fed
    {
      hide Counted, Feeds, R.RollingWindow.Valid, Matches;
      Materialize();
      w := Duplicate(klines);
    }

    method Duplicate(stored: seq<Kline>) returns (w: Window)
      requires Rolling()
      ensures fresh(w) && fresh(w.close20) && fresh(w.high20) && fresh(w.low20) && w.Rolling()
      ensures w.limit == limit && w.klines == stored && w.series == series && w.parseErr == parseErr && w.quality == quality
           && w.spurious == spurious
      ensures w.previewKline == None && w.previewBaseStart == 0 && w.previewBase == []
      ensures w.close20.fed == close20.fed && w.high20.fed == high20.fed && w.low20.fed == low20.fed
    {
      hide R.RollingWindow.Valid;
      var close := close20.Clone();
      var high := high20.Clone();
      var low := low20.Clone();
      w := new Window.Copy(this, close, high, low, stored);
    }

    /**
     * The window with one more closed kline, without touching this one.  Its klines, series
     * and rolling windows are those of appending to a clone; its gap counter is one too high
     * exactly when a limit of one drops the neighbour of the new kline.
     */
    method RealtimePreview(kline: Kline) returns (preview: Window)
      requires Valid()
      modifies `klines, `previewBase, `previewBaseStart, `previewKline
      ensures Valid() && All() == old(All())
      ensures fresh(preview) && fresh(preview.close20) && fresh(preview.high20) && fresh(preview.low20) && preview.Valid()
           && preview.limit == limit
      ensures preview.All() == Kept(All() + [kline.(closed := true)], limit) && preview.previewKline == Some(kline.(closed := true))
      ensures preview.parseErr <==> parseErr || !Parsed(kline)
      ensures !preview.parseErr ==>
                && preview.spurious == spurious + (if DropsNeighbour(All(), limit, kline) then 1 else 0)
                && preview.close20.fed == close20.fed + [kline.close.value] && preview.high20.fed == high20.fed + [kline.high.value]
                && preview.low20.fed == low20.fed + [kline.low.value]
    {
      hide Counted, Feeds, R.RollingWindow.Valid, Matches, Kept, DropsNeighbour;
      Materialize();
      SameGap(klines, limit, kline);
      preview := PreviewOf(kline.(closed := true));
    }

    method PreviewOf(k: Kline) returns (preview: Window)
      requires Valid() && previewKline.None?
      ensures fresh(preview) && fresh(preview.close20) && fresh(preview.high20) && fresh(preview.low20) && preview.Valid()
           && preview.limit == limit
      ensures preview.All() == Kept(klines + [k], limit) && preview.previewKline == Some(k)
      ensures preview.parseErr <==> parseErr || !Parsed(k)
      ensures !preview.parseErr ==>
                && preview.spurious == spurious + (if DropsNeighbour(klines, limit, k) then 1 else 0)
                && preview.close20.fed == close20.fed + [k.close.value] && preview.high20.fed == high20.fed + [k.high.value]
                && preview.low20.fed == low20.fed + [k.low.value]
    {
      hide Counted, Feeds, R.RollingWindow.Valid, Matches, Kept, Recount, Extended, Contribution, Trimmed, DropsNeighbour, AddQuality;
      var drop := if limit > 0 && |klines| + 1 > limit then |klines| + 1 - limit else 0;
      KeptByDrop(klines, k, limit, drop);
      var counts := PreviewCounts(k, drop);
      if !parseErr && Parsed(k) {
        PreviewSeries(series, klines, close20.fed, high20.fed, low20.fed, limit, drop, k);
      }
      preview := Duplicate([]);
      preview.Preview(klines, drop, k, counts);
    }

    /** The counters without the klines a preview pushes out. */
    method PreviewCounts(k: Kline, drop: nat) returns (counts: Counts)
      requires Valid() && previewKline.None? && drop == if limit > 0 && |klines| + 1 > limit then |klines| + 1 - limit else 0
      ensures drop <= |klines|
      ensures !parseErr && Parsed(k) ==>
                Counted(AddQuality(counts, klines, k), klines[drop..] + [k], spurious + if DropsNeighbour(klines, limit, k) then 1 else 0)
    {
      hide Counted, Feeds, R.RollingWindow.Valid, Matches, DropsNeighbour, AddQuality;
      counts := quality;
      if !parseErr {
        MatchedParse(series, klines);
        if drop > 0 {
          counts := RemoveQualityPrefix(quality, klines, drop);
        }
        if Parsed(k) {
          PreviewCounted(quality, klines, spurious, limit, drop, k, counts);
        }
      }
    }

    /** The preview's own steps, on a fresh copy without klines. */
    method Preview(base: seq<Kline>, drop: nat, k: Kline, counts: Counts)
      requires Rolling() && klines == [] && drop <= |base|
      modifies `series, `parseErr, `quality, `spurious, `previewBase, `previewBaseStart, `previewKline, close20, high20, low20
      ensures Rolling() && previewBase == base && previewBaseStart == drop && previewKline == Some(k)
      ensures parseErr <==> old(parseErr) || !Parsed(k)
      ensures !parseErr ==>
                && series == Trimmed(Extended(old(series), k), drop) && quality == AddQuality(counts, base, k)
                && spurious == old(spurious) + (if DropsNeighbour(base, limit, k) then 1 else 0)
                && close20.fed == old(close20.fed) + [k.close.value] && high20.fed == old(high20.fed) + [k.high.value]
                  && low20.fed == old(low20.fed) + [k.low.value]
    {
      hide R.RollingWindow.Valid, Extended, Contribution, Trimmed, DropsNeighbour;
      AppendSeries(k);
      previewBase, previewBaseStart, previewKline := base, drop, Some(k);
      if !parseErr {
        series := Trimmed(series, drop);
        quality := AddQuality(counts, base, k);
        spurious := spurious + if DropsNeighbour(base, limit, k) then 1 else 0;
      }
    }
  }

  /** A limit of one drops the only stored kline, and the new one does not follow on from it. */
  predicate DropsNeighbour(all: seq<Kline>, limit: int, k: Kline) {
    limit == 1 && |all| == 1 && HaveGap(all[0], k)
  }

  lemma {:induction false} SameGap(all: seq<Kline>, limit: int, k: Kline)
    ensures DropsNeighbour(all, limit, k.(closed := true)) == DropsNeighbour(all, limit, k)
  {
  }

  /** The new kline's own contribution, its gap measured from the last stored kline. */
  function AddQuality(q: Counts, base: seq<Kline>, k: Kline): Counts
    requires Parsed(k)
  {
    Counts(q.invalid + (if KlineInvalid(k, k.open.value, k.high.value, k.low.value, k.close.value) then 1 else 0),
           q.gaps + (if base != [] && HaveGap(base[|base| - 1], k) then 1 else 0),
           q.zeroVolume + if k.volume.value == 0.0 then 1 else 0)
  }

  lemma {:induction false} KeptByDrop(all: seq<Kline>, k: Kline, limit: int, drop: nat)
    requires limit > 0 ==> |all| <= limit
    requires drop == if limit > 0 && |all| + 1 > limit then |all| + 1 - limit else 0
    ensures drop <= |all| && drop <= 1 && all[drop..] + [k] == Kept(all + [k], limit)
    ensures limit > 0 ==> |Kept(all + [k], limit)| <= limit
  {
  }

  lemma {:induction false} PreviewSeries(s: Series, all: seq<Kline>, fedClose: seq<real>, fedHigh: seq<real>,
        fedLow: seq<real>, limit: int, drop: nat, k: Kline)
    requires Matches(s, all) && Parsed(k) && Feeds(fedClose, s.closes, limit) && Feeds(fedHigh, s.highs, limit) && Feeds(fedLow, s.lows, limit)
    requires (limit > 0 ==> |all| <= limit) && drop == if limit > 0 && |all| + 1 > limit then |all| + 1 - limit else 0
    ensures drop <= |all|
    ensures var next := Trimmed(Extended(s, k), drop);
            && Matches(next, all[drop..] + [k])
            && Feeds(fedClose + [k.close.value], next.closes, limit) && Feeds(fedHigh + [k.high.value], next.highs, limit)
            && Feeds(fedLow + [k.low.value], next.lows, limit)
  {
    hide Matches, Feeds, Extended;
    MatchesSnoc(s, all, k);
    MatchesTrimmed(Extended(s, k), all + [k], drop);
    assert (all + [k])[drop..] == all[drop..] + [k];
    ExtendedFields(s, k);
    SeriesLength(s, all);
    FeedsNext(fedClose, s.closes, limit, drop, k.close.value);
    FeedsNext(fedHigh, s.highs, limit, drop, k.high.value);
    FeedsNext(fedLow, s.lows, limit, drop, k.low.value);
  }

  lemma {:induction false} FeedsNext(fed: seq<real>, values: seq<real>, limit: int, drop: nat, v: real)
    requires Feeds(fed, values, limit) && drop == if limit > 0 && |values| + 1 > limit then |values| + 1 - limit else 0
    ensures Feeds(fed + [v], TrimSeq(values + [v], drop), limit)
  {
  }

  lemma {:induction false} PreviewCounted(q: Counts, all: seq<Kline>, spurious: nat, limit: int, drop: nat, k: Kline, counts: Counts)
    requires Counted(q, all, spurious) && Parsed(k)
    requires (limit > 0 ==> |all| <= limit) && drop == if limit > 0 && |all| + 1 > limit then |all| + 1 - limit else 0
    requires drop == 0 ==> counts == q
    requires drop > 0 ==>
               counts == Counts(q.invalid - InvalidCount(all, drop),
                    q.gaps - GapCount(all, if drop < |all| then drop + 1 else drop), q.zeroVolume - ZeroCount(all, drop))
    ensures drop <= |all| && Counted(AddQuality(counts, all, k), all[drop..] + [k], spurious + if DropsNeighbour(all, limit, k) then 1 else 0)
  {
    hide HaveGap, InvalidCount, GapCount, ZeroCount;
    RecountSnoc(all[drop..], k);
    if drop == 0 {
      assert all[0..] == all;
    } else if drop < |all| {
      CountedDrop(q, all, spurious, drop, counts);
    } else {
      OneLeft(all);
    }
  }

  lemma {:induction false} OneLeft(all: seq<Kline>)
    requires |all| == 1
    ensures GapCount(all, 1) == 0 && Recount(all[1..]) == CLEAN
    ensures Recount(all) == Counts(InvalidCount(all, 1), 0, ZeroCount(all, 1))
  {
  }

  lemma {:induction false} NoneSpurious(q: Counts, all: seq<Kline>)
    ensures Counted(q, all, 0) ==> q == Recount(all)
  {
  }

  lemma {:induction false} SeriesLength(s: Series, all: seq<Kline>)
    requires Matches(s, all)
    ensures |s.closes| == |s.highs| == |s.lows| == |all|
  {
  }

  lemma {:induction false} ExtendedFields(s: Series, k: Kline)
    requires Parsed(k)
    ensures Extended(s, k).closes == s.closes + [k.close.value] && Extended(s, k).highs == s.highs + [k.high.value]
         && Extended(s, k).lows == s.lows + [k.low.value]
  {
  }

  lemma {:induction false} FeedsAllTrimmed(fedClose: seq<real>, fedHigh: seq<real>, fedLow: seq<real>, s: Series, all: seq<Kline>, limit: int)
    requires Matches(s, all) && 0 < limit < |all|
    requires Feeds(fedClose, s.closes, limit) && Feeds(fedHigh, s.highs, limit) && Feeds(fedLow, s.lows, limit)
    ensures var t := Trimmed(s, |all| - limit);
            Feeds(fedClose, t.closes, limit) && Feeds(fedHigh, t.highs, limit) && Feeds(fedLow, t.lows, limit)
  {
  }

  lemma {:induction false} NothingTrimmed(s: Series)
    ensures Trimmed(s, 0) == s
  {
  }

  lemma {:induction false} NothingCounted(klines: seq<Kline>, limit: int)
    ensures Matches(NOTHING, klines[..0]) && Counted(CLEAN, klines[..0], 0)
    ensures Feeds([], [], limit)
  {
  }

  /** A readable kline keeps series and counters those of the klines so far. */
  lemma {:induction false} OneMoreMatched(s: Series, q: Counts, klines: seq<Kline>, index: nat)
    requires index < |klines| && Parsed(klines[index]) && Matches(s, klines[..index]) && Counted(q, klines[..index], 0)
    ensures Matches(Extended(s, klines[index]), klines[..index + 1])
    ensures Counted(Contribution(q, klines, index), klines[..index + 1], 0)
    ensures var next, k := Extended(s, klines[index]), klines[index];
            next.closes == s.closes + [k.close.value] && next.highs == s.highs + [k.high.value] && next.lows == s.lows + [k.low.value]
  {
    hide Matches, Counted, Extended, Contribution;
    assert klines[..index + 1] == klines[..index] + [klines[index]];
    MatchesSnoc(s, klines[..index], klines[index]);
    CountedSnoc(q, klines[..index], 0, klines[index]);
    PrefixContribution(q, klines, index);
    ExtendedFields(s, klines[index]);
  }

  lemma {:induction false} FeedsItself(values: seq<real>, limit: int)
    ensures Feeds(values, values, limit)
  {
  }

  lemma {:induction false} PrefixContribution(q: Counts, klines: seq<Kline>, index: nat)
    requires index < |klines| && Parsed(klines[index])
    ensures (klines[..index] + [klines[index]])[index] == klines[index]
    ensures Contribution(q, klines, index) == Contribution(q, klines[..index] + [klines[index]], index)
  {
  }

  lemma {:induction false} NoKlinesClosed()
    ensures ClosedOnly([]) == [] && AllParsed([])
  {
  }

  lemma {:induction false} ParsedSnoc(klines: seq<Kline>, k: Kline)
    ensures AllParsed(klines + [k]) <==> AllParsed(klines) && Parsed(k)
  {
    hide Parsed;
    if AllParsed(klines + [k]) {
      forall i | 0 <= i < |klines| ensures Parsed(klines[i]) {
        assert (klines + [k])[i] == klines[i];
      }
      assert (klines + [k])[|klines|] == k;
    }
  }

  lemma {:induction false} FitsLimit(all: seq<Kline>, limit: int)
    ensures limit > 0 ==> |Kept(all, limit)| <= limit
  {
  }

  method KeepClosed(all: seq<Kline>) returns (kept: seq<Kline>)
    ensures kept == ClosedOnly(all)
  {
    hide ClosedOnly;
    kept := [];
    NoKlinesClosed();
    assert all[..0] == [];
    for i := 0 to |all|
      invariant kept == ClosedOnly(all[..i])
    {
      assert all[..i + 1] == all[..i] + [all[i]];
      ClosedSnoc(all[..i], all[i]);
      if all[i].closed {
        kept := kept + [all[i]];
      }
    }
    assert all[..|all|] == all;
  }

  method KeepNewest(all: seq<Kline>, limit: int) returns (kept: seq<Kline>)
    ensures kept == Kept(all, limit)
  {
    if limit <= 0 || |all| <= limit {
      return all;
    }
    kept := all[|all| - limit..];
  }

  // ----- a reset under a pending preview -----

  /** After a reset to `all`, what matches the stored klines matches what the window stands for. */
  ghost predicate ResetFits(limit: int, base: seq<Kline>, start: nat, pending: Option<Kline>, all: seq<Kline>)
    requires start <= |base|
  {
    var kept := Kept(ClosedOnly(all), limit);
    forall s, q :: Matches(s, kept) && Counted(q, kept, 0) ==>
      Matches(s, Shown(kept, base, start, pending)) && Counted(q, Shown(kept, base, start, pending), 0)
  }

  lemma {:induction false} EmptyReset(limit: int)
    ensures Kept(ClosedOnly([]), limit) == [] && AllParsed([]) && Recount([]) == CLEAN
  {
  }

  lemma {:induction false} NothingToCount()
    ensures Matches(NOTHING, []) && Counted(CLEAN, [], 0)
  {
  }

  /** A reset leaves series and counters of what the window stands for, on every input, exactly when no preview is pending. */
  lemma {:induction false} ResetFitsExactlyWithoutPreview(limit: int, base: seq<Kline>, start: nat, pending: Option<Kline>)
    requires start <= |base|
    ensures (forall all :: ResetFits(limit, base, start, pending, all)) <==> pending.None?
  {
    hide Counted, Recount;
    if pending.Some? {
      EmptyReset(limit);
      assert Matches(NOTHING, []) && Counted(CLEAN, [], 0) by {
        NothingToCount();
      }
      assert !Matches(NOTHING, Shown([], base, start, pending));
      assert !ResetFits(limit, base, start, pending, []);
    }
  }

  /**
   * The failing case on a real window: previewing a kline without volume and resetting the
   * preview to nothing leaves a verdict of Fine, where a rescan of the klines the window
   * stands for finds the empty volume.
   */
  method ResetUnderPreview() returns (verdict: Verdict, rescan: Verdict)
    ensures verdict == Fine && rescan == ZeroVolume
  {
    hide Window.Valid, Window.Sane, Kept, Assessed;
    var k := Kline(Some(1.0), Some(1.0), Some(1.0), Some(1.0), Some(0.0), 1, 2, true);
    var w := new Window(0);
    var preview := w.RealtimePreview(k);
    KeptOne([], k);
    ValidIsSane(preview);
    verdict := ResetToNothing(preview, k);
    preview.Materialize();
    OneWithoutVolume(k, preview.klines);
    rescan := AssessDataQuality(preview.klines, 1);
  }

  method ResetToNothing(w: Window, ghost k: Kline) returns (verdict: Verdict)
    requires w.Sane() && w.All() == [k] && w.previewKline.Some?
    modifies w, w.close20, w.high20, w.low20
    ensures w.Sane() && w.All() == [k] && verdict == Fine
  {
    hide Window.Valid, Window.Sane, Window.Consistent, Recount, Kept, ClosedOnly, AllParsed, Assessed, FoundProblem;
    EmptyReset(w.limit);
    w.Reset([]);
    verdict := w.AssessQuality(1);
  }

  /** Without a parse error outstanding a valid window's series and counters are those of its klines. */
  lemma {:induction false} InStep(w: Window)
    requires w.Valid() && !w.parseErr
    ensures Matches(w.series, w.All()) && Counted(w.quality, w.All(), w.spurious)
  {
  }

  lemma {:induction false} ValidIsSane(w: Window)
    requires w.Valid()
    ensures w.Sane()
  {
  }

  lemma {:induction false} KeptOne(all: seq<Kline>, k: Kline)
    requires all == [] && k.closed
    ensures Kept(all + [k.(closed := true)], 0) == [k]
  {
  }

  lemma {:induction false} OneWithoutVolume(k: Kline, klines: seq<Kline>)
    requires klines == [k] && k == Kline(Some(1.0), Some(1.0), Some(1.0), Some(1.0), Some(0.0), 1, 2, true)
    ensures Assessed(klines, 1) == ZeroVolume
  {
    assert FirstProblem(klines, 0) == None && FirstProblem(klines, 1) == ProblemOf(klines[0]);
    assert klines[0].volume == Some(0.0);
  }

  /**
   * Previewing one kline against appending it to a clone: the same klines, series and
   * rolling windows, and the same counters exactly unless a limit of one drops a neighbour
   * that the new kline does not follow.  With a parse error outstanding the preview keeps it,
   * while the appended clone sheds it with the last kline that does not parse.
   */
  method PreviewAgainstAppend(w: Window, kline: Kline) returns (preview: Window, appended: Window)
    requires w.Valid()
    modifies w
    ensures w.Valid() && w.All() == old(w.All())
    ensures fresh(preview) && fresh(appended) && preview.Valid() && appended.Valid()
    ensures preview.All() == appended.All()
    ensures preview.parseErr <==> w.parseErr || !Parsed(kline)
    ensures appended.parseErr <==> (w.parseErr || !Parsed(kline)) && !AllParsed(appended.All())
    ensures !preview.parseErr ==> preview.series == appended.series
    ensures !preview.parseErr ==> (preview.quality == appended.quality <==> !DropsNeighbour(w.All(), w.limit, kline))
    ensures !preview.parseErr && (w.limit <= 0 || w.limit >= 2) ==> preview.quality == appended.quality
    ensures !preview.parseErr && (w.limit <= 0 || w.limit >= 2) && w.spurious == 0 ==> preview.quality == Recount(preview.All())
  {
    hide Counted, Feeds, R.RollingWindow.Valid, Matches, Kept, Recount, DropsNeighbour, ClosedOnly, Parsed, AllParsed, Shown, Window.Valid;
    var k := kline.(closed := true);
    OneClosed(k);
    ParsedWhenClosed(kline);
    preview := w.RealtimePreview(kline);
    appended := w.Clone();
    appended.Append([k]);
    ValidIsSane(w);
    ValidIsSane(preview);
    if !preview.parseErr {
      InStep(preview);
      InStep(appended);
      SameSeries(preview.series, appended.series, preview.All());
      CountersDiffer(preview.quality, appended.quality, preview.All(), preview.spurious, appended.spurious);
      NeighbourNeedsLimitOne(w.All(), w.limit, kline);
    }
  }

  lemma {:induction false} ParsedWhenClosed(k: Kline)
    ensures Parsed(k.(closed := true)) == Parsed(k)
  {
  }

  lemma {:induction false} OneClosed(k: Kline)
    requires k.closed
    ensures ClosedOnly([k]) == [k] && (AllParsed([k]) <==> Parsed(k))
  {
  }

  /** The klines determine the series. */
  lemma {:induction false} SameSeries(s: Series, t: Series, all: seq<Kline>)
    requires Matches(s, all) && Matches(t, all)
    ensures s == t
  {
  }

  lemma {:induction false} CountersDiffer(q: Counts, r: Counts, all: seq<Kline>, spurious: nat, fewer: nat)
    requires Counted(q, all, spurious) && Counted(r, all, fewer)
    ensures (q == r <==> spurious == fewer) && (fewer == 0 ==> r == Recount(all))
  {
  }

  lemma {:induction false} NeighbourNeedsLimitOne(all: seq<Kline>, limit: int, k: Kline)
    ensures DropsNeighbour(all, limit, k) ==> limit == 1
  {
  }
}
