/**
 * All candidates of a replay at once: one bar over the active list, and what the list and
 * the written outcomes are after any history of signals and bars.
 */
module ReplayRun {
  import opened Excursion
  import opened Numeric
  import opened FirstTouch
  import opened CandidateLife

  // ----- one bar, list by list -----

  /** The stops that survive a bar, with the bar counted in. */
  function StepStops(p: Plan, s: Signal, stops: seq<StopState>, b: Bar): seq<StopState> {
    if stops == [] then []
    else
      var rest, st := StepStops(p, s, stops[..|stops| - 1], b), stops[|stops| - 1];
      if Struck(s, st, b) then rest else rest + [Stamped(p, s, Counted(s, st, b), b)]
  }

  /** The rows written for the stops a bar touches. */
  function StruckRows(p: Plan, s: Signal, stops: seq<StopState>, b: Bar): seq<Outcome> {
    if stops == [] then []
    else
      var rest, st := StruckRows(p, s, stops[..|stops| - 1], b), stops[|stops| - 1];
      if Struck(s, st, b) then rest + Rows(p, s, b.close, Counted(s, st, b), StopLoss, b.time, |p.tiers|) else rest
  }

  /** The rows of every stop of a candidate that ends without being stopped out. */
  function FlushRows(p: Plan, s: Signal, lastClose: real, stops: seq<StopState>, expires: int): seq<Outcome> {
    if stops == [] then []
    else FlushRows(p, s, lastClose, stops[..|stops| - 1], expires) + Rows(p, s, lastClose, stops[|stops| - 1], Expired, expires, |p.tiers|)
  }

  function FlushCandidate(p: Plan, c: Candidate): seq<Outcome> {
    FlushRows(p, c.signal, c.lastClose, c.stops, c.expires)
  }

  function StepAll(p: Plan, active: seq<Candidate>, b: Bar): seq<Candidate> {
    if active == [] then []
    else
      var rest, c := StepAll(p, active[..|active| - 1], b), active[|active| - 1];
      var stops := StepStops(p, c.signal, c.stops, b);
      if b.time > c.expires || stops == [] then rest else rest + [c.(lastClose := b.close, stops := stops)]
  }

  function WrittenBy(p: Plan, active: seq<Candidate>, b: Bar): seq<Outcome> {
    if active == [] then []
    else
      var rest, c := WrittenBy(p, active[..|active| - 1], b), active[|active| - 1];
      rest + if b.time > c.expires then FlushCandidate(p, c) else StruckRows(p, c.signal, c.stops, b)
  }

  function FlushAll(p: Plan, active: seq<Candidate>): seq<Outcome> {
    if active == [] then [] else FlushAll(p, active[..|active| - 1]) + FlushCandidate(p, active[|active| - 1])
  }

  lemma {:induction false} StopsSnoc(p: Plan, s: Signal, stops: seq<StopState>, st: StopState, b: Bar)
    ensures StepStops(p, s, stops + [st], b)
         == if Struck(s, st, b) then StepStops(p, s, stops, b) else StepStops(p, s, stops, b) + [Stamped(p, s, Counted(s, st, b), b)]
    ensures StruckRows(p, s, stops + [st], b)
         == if Struck(s, st, b) then StruckRows(p, s, stops, b) + Rows(p, s, b.close, Counted(s, st, b), StopLoss, b.time, |p.tiers|)
            else StruckRows(p, s, stops, b)
  {
  }

  lemma {:induction false} FlushSnoc(p: Plan, s: Signal, lastClose: real, stops: seq<StopState>, st: StopState, expires: int)
    ensures FlushRows(p, s, lastClose, stops + [st], expires) == FlushRows(p, s, lastClose, stops, expires)
         + Rows(p, s, lastClose, st, Expired, expires, |p.tiers|)
  {
  }

  lemma {:induction false} AllSnoc(p: Plan, active: seq<Candidate>, c: Candidate, b: Bar)
    ensures var stops := StepStops(p, c.signal, c.stops, b);
            StepAll(p, active + [c], b)
            == if b.time > c.expires || stops == [] then StepAll(p, active, b)
                 else StepAll(p, active, b) + [c.(lastClose := b.close, stops := stops)]
    ensures WrittenBy(p, active + [c], b)
         == WrittenBy(p, active, b) + if b.time > c.expires then FlushCandidate(p, c) else StruckRows(p, c.signal, c.stops, b)
    ensures FlushAll(p, active + [c]) == FlushAll(p, active) + FlushCandidate(p, c)
  {
  }

  // ----- the closed form of a history -----

  /** A candidate as its signal created it, and the bars since. */
  datatype History = History(born: Candidate, bars: seq<Bar>)

  predicate LivesIn(h: History, st: StopState) {
    StopLives(h.born.signal, h.born.expires, st.distanceBps, h.bars)
  }

  function LiveStops(p: Plan, h: History, n: nat): seq<StopState>
    requires n <= |h.born.stops|
  {
    if n == 0 then []
    else
      var st := h.born.stops[n - 1];
      if LivesIn(h, st) then LiveStops(p, h, n - 1) + [StateAfter(p, h.born.signal, st, h.bars)] else LiveStops(p, h, n - 1)
  }

  function OutcomesOfStop(p: Plan, h: History, st: StopState): (r: seq<Outcome>)
    ensures |r| == |p.tiers|
  {
    StopOutcomes(p, h.born.signal, h.born.expires, st, h.bars, |p.tiers|)
  }

  /** The brute-force outcomes of the first n stops that have ended. */
  function EndedOutcomes(p: Plan, h: History, n: nat): multiset<Outcome>
    requires n <= |h.born.stops|
  {
    if n == 0 then multiset{}
    else if LivesIn(h, h.born.stops[n - 1]) then EndedOutcomes(p, h, n - 1)
    else EndedOutcomes(p, h, n - 1) + multiset(OutcomesOfStop(p, h, h.born.stops[n - 1]))
  }

  /** The brute-force outcomes of the first n stops. */
  function AllOutcomes(p: Plan, h: History, n: nat): (r: multiset<Outcome>)
    requires n <= |h.born.stops|
    ensures |r| == n * |p.tiers|
  {
    if n == 0 then multiset{} else AllOutcomes(p, h, n - 1) + multiset(OutcomesOfStop(p, h, h.born.stops[n - 1]))
  }

  function Later(h: History, b: Bar): History {
    h.(bars := h.bars + [b])
  }

  /** Before the expiry a bar turns the live stops of a history into those of the longer one, and writes what ended. */
  lemma {:induction false} StopsStep(p: Plan, h: History, b: Bar, n: nat)
    requires n <= |h.born.stops| && b.time <= h.born.expires
    ensures StepStops(p, h.born.signal, LiveStops(p, h, n), b) == LiveStops(p, Later(h, b), n)
    ensures EndedOutcomes(p, Later(h, b), n) == EndedOutcomes(p, h, n) + multiset(StruckRows(p, h.born.signal, LiveStops(p, h, n), b))
    decreases n
  {
    hide StateAfter, Struck, Stamped, Counted, Rows, StopLives, StopOutcomes, StepStops, StruckRows;
    if n == 0 {
      NoStops(p, h.born.signal, b);
    } else {
      StopsStep(p, h, b, n - 1);
      var st := h.born.stops[n - 1];
      OneStopStep(p, h, b, st);
      if LivesIn(h, st) {
        StopsSnoc(p, h.born.signal, LiveStops(p, h, n - 1), StateAfter(p, h.born.signal, st, h.bars), b);
      }
    }
  }

  lemma {:induction false} NoStops(p: Plan, s: Signal, b: Bar)
    ensures StepStops(p, s, [], b) == [] && StruckRows(p, s, [], b) == []
  {
  }

  lemma {:induction false} OneStopStep(p: Plan, h: History, b: Bar, st: StopState)
    requires b.time <= h.born.expires
    ensures var s, now := h.born.signal, StateAfter(p, h.born.signal, st, h.bars);
            && (!LivesIn(h, st) ==> !LivesIn(Later(h, b), st) && OutcomesOfStop(p, Later(h, b), st) == OutcomesOfStop(p, h, st))
            && (LivesIn(h, st) ==> LivesIn(Later(h, b), st) == !Struck(s, now, b))
            && (LivesIn(h, st) && !Struck(s, now, b) ==> Stamped(p, s, Counted(s, now, b), b) == StateAfter(p, s, st, Later(h, b).bars))
            && (LivesIn(h, st) && Struck(s, now, b) ==>
                  Rows(p, s, b.close, Counted(s, now, b), StopLoss, b.time, |p.tiers|) == OutcomesOfStop(p, Later(h, b), st))
  {
    hide Stamped, Counted, Rows, StopLives, StopOutcomes, Touches, HitTimes, HitBars, BestFavorable, WorstAdverse;
    var s, e := h.born.signal, h.born.expires;
    LivesSnoc(s, e, st.distanceBps, h.bars, b);
    if !LivesIn(h, st) {
      FinalOutcomes(p, s, e, st, h.bars, b, |p.tiers|);
    } else {
      StateSnoc(p, s, st, h.bars, b);
      if Touches(Against(s, st.distanceBps), b) {
        StoppedRows(p, s, e, st, h.bars, b, |p.tiers|);
      }
    }
  }

  /** Past the expiry every live stop is written and none is left. */
  lemma {:induction false} StopsExpire(p: Plan, h: History, b: Bar, n: nat)
    requires n <= |h.born.stops| && b.time > h.born.expires
    ensures LiveStops(p, Later(h, b), n) == []
    ensures EndedOutcomes(p, Later(h, b), n)
         == EndedOutcomes(p, h, n) + multiset(FlushRows(p, h.born.signal, LastClose(h.born.signal, h.bars), LiveStops(p, h, n), h.born.expires))
    decreases n
  {
    hide StateAfter, Rows, StopLives, StopOutcomes, FlushRows, LastClose;
    var s, e := h.born.signal, h.born.expires;
    if n == 0 {
      NothingToFlush(p, s, LastClose(s, h.bars), e);
    } else {
      StopsExpire(p, h, b, n - 1);
      var st := h.born.stops[n - 1];
      LivesSnoc(s, e, st.distanceBps, h.bars, b);
      if LivesIn(h, st) {
        FlushSnoc(p, s, LastClose(s, h.bars), LiveStops(p, h, n - 1), StateAfter(p, s, st, h.bars), e);
        ExpiredRows(p, s, e, st, h.bars, b, |p.tiers|);
      } else {
        FinalOutcomes(p, s, e, st, h.bars, b, |p.tiers|);
      }
    }
  }

  lemma {:induction false} NothingToFlush(p: Plan, s: Signal, lastClose: real, e: int)
    ensures FlushRows(p, s, lastClose, [], e) == []
  {
  }

  /** At the end of the data the ended and the flushed outcomes are all outcomes. */
  lemma {:induction false} StopsFinish(p: Plan, h: History, n: nat)
    requires n <= |h.born.stops|
    ensures AllOutcomes(p, h, n)
         == EndedOutcomes(p, h, n) + multiset(FlushRows(p, h.born.signal, LastClose(h.born.signal, h.bars), LiveStops(p, h, n), h.born.expires))
    decreases n
  {
    hide StateAfter, Rows, StopLives, StopOutcomes, FlushRows, LastClose;
    var s, e := h.born.signal, h.born.expires;
    if n == 0 {
      NothingToFlush(p, s, LastClose(s, h.bars), e);
    } else {
      StopsFinish(p, h, n - 1);
      var st := h.born.stops[n - 1];
      if LivesIn(h, st) {
        FlushSnoc(p, s, LastClose(s, h.bars), LiveStops(p, h, n - 1), StateAfter(p, s, st, h.bars), e);
        FlushedRows(p, s, e, st, h.bars, |p.tiers|);
      }
    }
  }

  // ----- the whole list -----

  function CandidateAfter(p: Plan, h: History): Candidate {
    h.born.(lastClose := LastClose(h.born.signal, h.bars), stops := LiveStops(p, h, |h.born.stops|))
  }

  function Ended(p: Plan, h: History): multiset<Outcome> {
    EndedOutcomes(p, h, |h.born.stops|)
  }

  function All(p: Plan, h: History): (r: multiset<Outcome>)
    ensures |r| == |h.born.stops| * |p.tiers|
  {
    AllOutcomes(p, h, |h.born.stops|)
  }

  /** The candidates that still have a live stop, oldest signal first. */
  function LiveCandidates(p: Plan, hs: seq<History>): seq<Candidate> {
    if hs == [] then []
    else
      var rest, c := LiveCandidates(p, hs[..|hs| - 1]), CandidateAfter(p, hs[|hs| - 1]);
      if c.stops == [] then rest else rest + [c]
  }

  function EndedIn(p: Plan, hs: seq<History>): multiset<Outcome> {
    if hs == [] then multiset{} else EndedIn(p, hs[..|hs| - 1]) + Ended(p, hs[|hs| - 1])
  }

  /** Exactly one brute-force outcome per signal, stop and tier. */
  function AllIn(p: Plan, hs: seq<History>): multiset<Outcome> {
    if hs == [] then multiset{} else AllIn(p, hs[..|hs| - 1]) + All(p, hs[|hs| - 1])
  }

  function LaterAll(hs: seq<History>, b: Bar): (r: seq<History>)
    ensures |r| == |hs| && forall i :: 0 <= i < |hs| ==> r[i] == Later(hs[i], b)
  {
    if hs == [] then [] else LaterAll(hs[..|hs| - 1], b) + [Later(hs[|hs| - 1], b)]
  }

  lemma {:induction false} OneStep(p: Plan, h: History, b: Bar)
    ensures var c, next := CandidateAfter(p, h), CandidateAfter(p, Later(h, b));
            && (b.time > h.born.expires ==> next.stops == [] && Ended(p, Later(h, b)) == Ended(p, h) + multiset(FlushCandidate(p, c)))
            && (b.time <= h.born.expires ==>
                  && next == c.(lastClose := b.close, stops := StepStops(p, c.signal, c.stops, b))
                  && Ended(p, Later(h, b)) == Ended(p, h) + multiset(StruckRows(p, c.signal, c.stops, b)))
  {
    hide LiveStops, EndedOutcomes, FlushRows, StepStops, StruckRows, LastClose;
    BestsSnoc(h.born.signal, h.bars, b);
    if b.time > h.born.expires {
      StopsExpire(p, h, b, |h.born.stops|);
    } else {
      StopsStep(p, h, b, |h.born.stops|);
    }
  }

  /** A candidate with no live stop neither acts nor changes what has ended. */
  lemma {:induction false} DeadStaysDead(p: Plan, h: History, b: Bar)
    requires CandidateAfter(p, h).stops == []
    ensures CandidateAfter(p, Later(h, b)).stops == [] && Ended(p, Later(h, b)) == Ended(p, h)
  {
    hide CandidateAfter, Ended;
    var c := CandidateAfter(p, h);
    OneStep(p, h, b);
    NoStops(p, c.signal, b);
    NothingToFlush(p, c.signal, c.lastClose, c.expires);
  }

  /** One bar over the active list is the closed form of one more bar, and writes exactly what ended. */
  lemma {:induction false} ListStep(p: Plan, hs: seq<History>, b: Bar)
    ensures StepAll(p, LiveCandidates(p, hs), b) == LiveCandidates(p, LaterAll(hs, b))
    ensures EndedIn(p, LaterAll(hs, b)) == EndedIn(p, hs) + multiset(WrittenBy(p, LiveCandidates(p, hs), b))
    decreases |hs|
  {
    hide CandidateAfter, Ended, StepStops, StruckRows, FlushCandidate, StepAll, WrittenBy, LiveCandidates, EndedIn, LaterAll, Later;
    if hs == [] {
      NoCandidates(p, b);
      NoHistory(p, b);
      assert hs == [];
    } else {
      var rest, h := hs[..|hs| - 1], hs[|hs| - 1];
      ListStep(p, rest, b);
      LaterAllSnoc(rest, h, b);
      assert hs == rest + [h];
      HistorySnoc(p, rest, h);
      HistorySnoc(p, LaterAll(rest, b), Later(h, b));
      var live := LiveCandidates(p, rest);
      LastStep(p, live, h, b);
      Regroup(EndedIn(p, rest), multiset(WrittenBy(p, LiveCandidates(p, hs), b)), Ended(p, h),
           multiset(WrittenBy(p, live, b)), Ended(p, Later(h, b)));
    }
  }

  lemma {:induction false} Regroup<T>(a: multiset<T>, b: multiset<T>, c: multiset<T>, d: multiset<T>, e: multiset<T>)
    requires b + c == d + e
    ensures (a + d) + e == (a + c) + b
  {
    assert (a + d) + e == a + (d + e);
    assert (a + c) + b == a + (b + c);
  }

  lemma {:induction false} NoHistory(p: Plan, b: Bar)
    ensures LaterAll([], b) == [] && LiveCandidates(p, []) == [] && EndedIn(p, []) == multiset{}
  {
  }

  lemma {:induction false} HistorySnoc(p: Plan, hs: seq<History>, h: History)
    ensures LiveCandidates(p, hs + [h]) == if CandidateAfter(p, h).stops == [] then LiveCandidates(p, hs)
         else LiveCandidates(p, hs) + [CandidateAfter(p, h)]
    ensures EndedIn(p, hs + [h]) == EndedIn(p, hs) + Ended(p, h)
  {
  }

  lemma {:induction false} LastStep(p: Plan, live: seq<Candidate>, h: History, b: Bar)
    ensures var c, next := CandidateAfter(p, h), CandidateAfter(p, Later(h, b));
            var all := if c.stops == [] then live else live + [c];
            && StepAll(p, all, b) == (if next.stops == [] then StepAll(p, live, b) else StepAll(p, live, b) + [next])
            && multiset(WrittenBy(p, all, b)) + Ended(p, h) == multiset(WrittenBy(p, live, b)) + Ended(p, Later(h, b))
  {
    hide CandidateAfter, Ended, StepStops, StruckRows, FlushCandidate, StepAll, WrittenBy, Later;
    var c := CandidateAfter(p, h);
    if c.stops == [] {
      DeadStaysDead(p, h, b);
    } else {
      OneStep(p, h, b);
      BornWith(p, h);
      AllSnoc(p, live, c, b);
    }
  }

  lemma {:induction false} BornWith(p: Plan, h: History)
    ensures CandidateAfter(p, h).expires == h.born.expires && CandidateAfter(p, h).signal == h.born.signal
  {
  }

  lemma {:induction false} LaterAllSnoc(hs: seq<History>, h: History, b: Bar)
    ensures LaterAll(hs + [h], b) == LaterAll(hs, b) + [Later(h, b)]
    ensures LaterAll(hs + [h], b)[..|LaterAll(hs + [h], b)| - 1] == LaterAll(hs, b)
  {
  }

  lemma {:induction false} NoCandidates(p: Plan, b: Bar)
    ensures StepAll(p, [], b) == [] && WrittenBy(p, [], b) == [] && FlushAll(p, []) == []
  {
  }

  /** Flushing the active list completes the outcomes. */
  lemma {:induction false} ListFinish(p: Plan, hs: seq<History>)
    ensures AllIn(p, hs) == EndedIn(p, hs) + multiset(FlushAll(p, LiveCandidates(p, hs)))
    decreases |hs|
  {
    hide FlushRows, FlushAll, LiveStops, EndedOutcomes, AllOutcomes, LastClose;
    if hs == [] {
      NoFlush(p);
    } else {
      var rest, h := hs[..|hs| - 1], hs[|hs| - 1];
      ListFinish(p, rest);
      StopsFinish(p, h, |h.born.stops|);
      var c := CandidateAfter(p, h);
      if c.stops == [] {
        NothingToFlush(p, c.signal, c.lastClose, c.expires);
      } else {
        FlushAllSnoc(p, LiveCandidates(p, rest), c);
      }
    }
  }

  lemma {:induction false} NoFlush(p: Plan)
    ensures FlushAll(p, []) == []
  {
  }

  lemma {:induction false} FlushAllSnoc(p: Plan, active: seq<Candidate>, c: Candidate)
    ensures FlushAll(p, active + [c]) == FlushAll(p, active) + FlushCandidate(p, c)
  {
  }

  /** A new signal starts live with nothing written. */
  lemma {:induction false} ListAdd(p: Plan, hs: seq<History>, born: Candidate)
    requires born.stops != [] && born.lastClose == born.signal.entryPrice
    requires forall i :: 0 <= i < |born.stops| ==> Untouched(born.stops[i])
    ensures LiveCandidates(p, hs + [History(born, [])]) == LiveCandidates(p, hs) + [born]
    ensures EndedIn(p, hs + [History(born, [])]) == EndedIn(p, hs)
  {
    hide EndedOutcomes, LiveStops;
    var h := History(born, []);
    assert (hs + [h])[..|hs|] == hs;
    NewbornStops(p, h, |born.stops|);
    assert born.stops[..|born.stops|] == born.stops;
  }

  predicate Untouched(st: StopState) {
    st.observedBars == 0 && st.maxFavorableBps == 0.0 && st.maxAdverseBps == 0.0 && st.hitTimes == map[] && st.hitBars == map[]
  }

  lemma {:induction false} NewbornStops(p: Plan, h: History, n: nat)
    requires n <= |h.born.stops| && h.bars == [] && forall i :: 0 <= i < |h.born.stops| ==> Untouched(h.born.stops[i])
    ensures LiveStops(p, h, n) == h.born.stops[..n] && EndedOutcomes(p, h, n) == multiset{}
    decreases n
  {
    hide StateAfter, StopLives, StopOutcomes;
    if n > 0 {
      NewbornStops(p, h, n - 1);
      NewbornStop(p, h.born.signal, h.born.expires, h.born.stops[n - 1]);
    }
  }

  lemma {:induction false} NewbornStop(p: Plan, s: Signal, expires: int, st: StopState)
    requires Untouched(st)
    ensures StopLives(s, expires, st.distanceBps, []) && StateAfter(p, s, st, []) == st
  {
  }

  // ----- what the outcomes of a whole run are -----

  lemma {:induction false} StopOutcomesAre(p: Plan, s: Signal, expires: int, st: StopState, bars: seq<Bar>, n: nat)
    requires n <= |p.tiers|
    ensures forall k :: 0 <= k < n ==> StopOutcomes(p, s, expires, st, bars, n)[k] == OutcomeOf(p, s, expires, st, p.tiers[k], bars)
    decreases n
  {
    hide OutcomeOf;
    if n > 0 {
      StopOutcomesAre(p, s, expires, st, bars, n - 1);
    }
  }

  /** The row of one signal, stop and tier. */
  ghost predicate RowOf(p: Plan, h: History, stop: int, tier: int, o: Outcome) {
    && 0 <= stop < |h.born.stops| && 0 <= tier < |p.tiers|
    && o == OutcomeOf(p, h.born.signal, h.born.expires, h.born.stops[stop], p.tiers[tier], h.bars)
  }

  lemma {:induction false} AllOutcomesAre(p: Plan, h: History, n: nat, o: Outcome)
    requires n <= |h.born.stops|
    ensures o in AllOutcomes(p, h, n) <==> exists stop, tier :: stop < n && RowOf(p, h, stop, tier, o)
    decreases n
  {
    hide OutcomeOf, StopOutcomes;
    if n > 0 {
      AllOutcomesAre(p, h, n - 1, o);
      StopOutcomesAre(p, h.born.signal, h.born.expires, h.born.stops[n - 1], h.bars, |p.tiers|);
      var rows := OutcomesOfStop(p, h, h.born.stops[n - 1]);
      if o in rows {
        var k :| 0 <= k < |rows| && rows[k] == o;
        assert RowOf(p, h, n - 1, k, o);
      }
      if exists stop, tier :: stop < n && RowOf(p, h, stop, tier, o) {
        var stop, tier :| stop < n && RowOf(p, h, stop, tier, o);
        if stop == n - 1 {
          assert rows[tier] == o;
        }
      }
    }
  }

  ghost predicate HasRow(p: Plan, h: History, o: Outcome) {
    exists stop, tier :: RowOf(p, h, stop, tier, o)
  }

  /** The outcomes of a run are the rows of its signals, stops and tiers, and nothing else. */
  lemma {:induction false} RowsOfRun(p: Plan, hs: seq<History>, o: Outcome)
    ensures o in AllIn(p, hs) <==> exists i :: 0 <= i < |hs| && HasRow(p, hs[i], o)
    decreases |hs|
  {
    hide RowOf, AllOutcomes;
    if hs != [] {
      var rest, h := hs[..|hs| - 1], hs[|hs| - 1];
      RowsOfRun(p, rest, o);
      AllOutcomesAre(p, h, |h.born.stops|, o);
      StopInRange(p, h, o);
      assert forall i :: 0 <= i < |rest| ==> rest[i] == hs[i];
    }
  }

  lemma {:induction false} StopInRange(p: Plan, h: History, o: Outcome)
    ensures (exists stop, tier :: stop < |h.born.stops| && RowOf(p, h, stop, tier, o)) <==> HasRow(p, h, o)
  {
    hide OutcomeOf;
    forall stop, tier ensures RowOf(p, h, stop, tier, o) ==> stop < |h.born.stops| {
    }
  }

  function RowCount(p: Plan, hs: seq<History>): nat {
    if hs == [] then 0 else RowCount(p, hs[..|hs| - 1]) + |hs[|hs| - 1].born.stops| * |p.tiers|
  }

  /** There are as many as there are combinations. */
  lemma {:induction false} OneRowEach(p: Plan, hs: seq<History>)
    ensures |AllIn(p, hs)| == RowCount(p, hs)
    decreases |hs|
  {
    hide AllOutcomes;
    if hs != [] {
      OneRowEach(p, hs[..|hs| - 1]);
    }
  }
}
