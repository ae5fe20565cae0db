/**
 * The confirmation filter in front of the later regime models: a target pair is committed
 * when it has been seen often enough in a row.  The pending pair is never cleared, only its
 * counter; a fast release bypasses the filter.
 */
module ConfirmationFilter {

  datatype State = Normal | ChopLock | BreakoutPending | TrendArmed | TrendActive

  /** A direction has a fourth value: Unset, the empty text every analyzer starts with. */
  datatype Bias = Unset | NoBias | Long | Short

  datatype Pair = Pair(state: State, direction: Bias)

  datatype Event = Target(pair: Pair) | Fast(pair: Pair)

  // ----- the law -----

  /** How many of the last events are this very event; a fast release is a run of its own. */
  function Run(events: seq<Event>): (r: nat)
    ensures r <= |events| && (events != [] ==> r >= 1)
  {
    if events == [] then 0
    else if |events| >= 2 && events[|events| - 1] == events[|events| - 2] && events[|events| - 1].Target? then Run(events[..|events| - 1]) + 1
    else 1
  }

  /** A run is as long as possible: equal targets, and something else before them. */
  lemma {:induction false} RunIsMaximal(events: seq<Event>)
    requires events != []
    ensures forall i :: |events| - Run(events) <= i < |events| ==> events[i] == events[|events| - 1]
    ensures Run(events) < |events| && events[|events| - 1].Target? ==> events[|events| - 1 - Run(events)] != events[|events| - 1]
    ensures events[|events| - 1].Fast? ==> Run(events) == 1
    decreases |events|
  {
    if |events| >= 2 && events[|events| - 1] == events[|events| - 2] && events[|events| - 1].Target? {
      RunIsMaximal(events[..|events| - 1]);
    }
  }

  /** The most recent pair that was released fast or targeted `confirm` times in a row; the initial pair before any. */
  function Lawful(initial: Pair, confirm: nat, events: seq<Event>): Pair {
    if events == [] then initial
    else
      var last := events[|events| - 1];
      if last.Fast? || Run(events) >= confirm then last.pair
      else Lawful(initial, confirm, events[..|events| - 1])
  }

  // ----- the filter -----

  datatype Filter = Filter(committed: Pair, pending: Pair, hasPending: bool, pendingBars: nat, stateBars: nat)

  function Begin(initial: Pair): Filter {
    Filter(initial, initial, false, 0, 0)
  }

  function Step(confirm: nat, f: Filter, e: Event): Filter {
    match e
    case Fast(p) => Filter(p, p, false, 0, 1)
    case Target(p) =>
      if p == f.committed then f.(pendingBars := 0, stateBars := f.stateBars + 1)
      else if !f.hasPending || p != f.pending then f.(pending := p, hasPending := true, pendingBars := 1, stateBars := f.stateBars + 1)
      else if f.pendingBars + 1 >= confirm then f.(committed := p, pendingBars := 0, stateBars := 1)
      else f.(pendingBars := f.pendingBars + 1, stateBars := f.stateBars + 1)
  }

  function After(initial: Pair, confirm: nat, events: seq<Event>): Filter {
    if events == [] then Begin(initial) else Step(confirm, After(initial, confirm, events[..|events| - 1]), events[|events| - 1])
  }

  /** The counter is the run of the last target, or zero when that target is committed. */
  ghost predicate Tracks(confirm: nat, f: Filter, events: seq<Event>) {
    if events == [] then f.pendingBars == 0 && !f.hasPending
    else
      var last := events[|events| - 1];
      if last.pair == f.committed then f.pendingBars == 0 && (last.Fast? ==> !f.hasPending)
      else last.Target? && f.hasPending && f.pending == last.pair && f.pendingBars == Run(events) < confirm
  }

  lemma {:induction false} RunSnoc(events: seq<Event>, e: Event)
    ensures Run(events + [e]) == if events != [] && e.Target? && events[|events| - 1] == e then Run(events) + 1 else 1
  {
    assert (events + [e])[..|events|] == events;
  }

  lemma {:induction false} LawSnoc(initial: Pair, confirm: nat, events: seq<Event>, e: Event)
    ensures Lawful(initial, confirm, events + [e]) == if e.Fast? || Run(events + [e]) >= confirm then e.pair
         else Lawful(initial, confirm, events)
  {
    hide Run;
    assert (events + [e])[..|events|] == events;
  }

  lemma {:induction false} TracksStep(confirm: nat, f: Filter, events: seq<Event>, e: Event, lawful: Pair)
    requires confirm >= 2 && Tracks(confirm, f, events) && f.committed == lawful
    ensures Tracks(confirm, Step(confirm, f, e), events + [e])
    ensures Step(confirm, f, e).committed == if e.Fast? || Run(events + [e]) >= confirm then e.pair else lawful
  {
    hide Run;
    RunSnoc(events, e);
    RunAtLeastOne(events);
  }

  lemma {:induction false} RunAtLeastOne(events: seq<Event>)
    ensures events != [] ==> Run(events) >= 1
  {
  }

  lemma {:induction false} FilterTracksLaw(initial: Pair, confirm: nat, events: seq<Event>)
    requires confirm >= 2
    ensures Tracks(confirm, After(initial, confirm, events), events)
    ensures After(initial, confirm, events).committed == Lawful(initial, confirm, events)
    decreases |events|
  {
    hide Tracks, Step, Run;
    if events == [] {
      TracksNothing(initial, confirm);
    } else {
      var rest, e := events[..|events| - 1], events[|events| - 1];
      assert events == rest + [e];
      FilterTracksLaw(initial, confirm, rest);
      TracksStep(confirm, After(initial, confirm, rest), rest, e, Lawful(initial, confirm, rest));
      LawSnoc(initial, confirm, rest, e);
    }
  }

  lemma {:induction false} TracksNothing(initial: Pair, confirm: nat)
    ensures Tracks(confirm, Begin(initial), [])
  {
  }

  ghost predicate AlwaysLawful(confirm: nat) {
    forall initial, events :: After(initial, confirm, events).committed == Lawful(initial, confirm, events)
  }

  /**
   * The filter commits the most recent confirmed pair for every history exactly when at
   * least two bars are asked for: with one, a first sighting is still only pending.
   */
  lemma {:induction false} LawfulExactlyFromTwo(confirm: nat)
    ensures AlwaysLawful(confirm) <==> confirm >= 2
  {
    if confirm >= 2 {
      forall initial, events ensures After(initial, confirm, events).committed == Lawful(initial, confirm, events) {
        FilterTracksLaw(initial, confirm, events);
      }
    } else {
      var start, other := Pair(Normal, Unset), Pair(ChopLock, NoBias);
      var one: seq<Event> := [Target(other)];
      assert one == [] + [Target(other)];
      AfterSnoc(start, confirm, [], Target(other));
      LawSnoc(start, confirm, [], Target(other));
      RunSnoc([], Target(other));
      assert After(start, confirm, one).committed == start && Lawful(start, confirm, one) == other;
    }
  }

  /** With one bar asked for, a stale pending pair can even be committed on a single later sighting. */
  lemma {:induction false} StalePendingCommits(a: Pair, b: Pair)
    requires a != b
    ensures After(a, 1, [Target(b)] + [Target(a)]).committed == a && After(a, 1, [Target(b)] + [Target(a)] + [Target(b)]).committed == b
  {
    AfterSnoc(a, 1, [], Target(b));
    assert [Target(b)] == [] + [Target(b)];
    AfterSnoc(a, 1, [Target(b)], Target(a));
    AfterSnoc(a, 1, [Target(b)] + [Target(a)], Target(b));
  }

  lemma {:induction false} AfterSnoc(initial: Pair, confirm: nat, events: seq<Event>, e: Event)
    ensures After(initial, confirm, events + [e]) == Step(confirm, After(initial, confirm, events), e)
    ensures After(initial, confirm, []) == Begin(initial)
  {
    hide Step;
    assert (events + [e])[..|events|] == events;
  }

  /** Events since the pair was last committed or released. */
  function Age(initial: Pair, confirm: nat, events: seq<Event>): nat {
    if events == [] then 0
    else
      var rest, e := events[..|events| - 1], events[|events| - 1];
      if e.Fast? || After(initial, confirm, events).committed != After(initial, confirm, rest).committed then 1
      else Age(initial, confirm, rest) + 1
  }

  lemma {:induction false} StateBarsIsAge(initial: Pair, confirm: nat, events: seq<Event>)
    ensures After(initial, confirm, events).stateBars == Age(initial, confirm, events)
    decreases |events|
  {
    if events != [] {
      StateBarsIsAge(initial, confirm, events[..|events| - 1]);
    }
  }

  // ----- the filter as the analyzers keep it -----

  class Gate {
    const confirmBars: nat
    const initial: Pair
    var state: State
    var direction: Bias
    var pendingState: State
    var pendingDirection: Bias
    var hasPending: bool
    var pendingBars: nat
    var stateBars: nat
    ghost var events: seq<Event>

    ghost function View(): Filter
      reads this
    {
      Filter(Pair(state, direction), Pair(pendingState, pendingDirection), hasPending, pendingBars, stateBars)
    }

    ghost predicate Valid()
      reads this
    {
      View() == After(initial, confirmBars, events)
    }

    /** Every analyzer starts normal with an unset direction. */
    constructor (confirmBars: nat)
      ensures Valid() && events == [] && this.confirmBars == confirmBars && initial == Pair(Normal, Unset)
    {
      this.confirmBars := confirmBars;
      initial := Pair(Normal, Unset);
      state, direction, pendingState, pendingDirection := Normal, Unset, Normal, Unset;
      hasPending, pendingBars, stateBars, events := false, 0, 0, [];
    }

    /** From two bars on, what is committed is what the law says of everything seen. */
    method Transition(targetState: State, targetDirection: Bias)
      requires Valid()
      modifies this
      ensures Valid() && events == old(events) + [Target(Pair(targetState, targetDirection))]
      ensures confirmBars >= 2 ==> Pair(state, direction) == Lawful(initial, confirmBars, events)
    {
      hide After, Lawful;
      ghost var e := Target(Pair(targetState, targetDirection));
      AfterSnoc(initial, confirmBars, events, e);
      if confirmBars >= 2 {
        FilterTracksLaw(initial, confirmBars, events + [e]);
      }
      Count(targetState, targetDirection);
      events := events + [e];
    }

    method Count(targetState: State, targetDirection: Bias)
      modifies `state, `direction, `pendingState, `pendingDirection, `hasPending, `pendingBars, `stateBars
      ensures View() == Step(confirmBars, old(View()), Target(Pair(targetState, targetDirection)))
    {
      if targetState == state && targetDirection == direction {
        pendingBars := 0;
        stateBars := stateBars + 1;
        return;
      }
      if !hasPending || targetState != pendingState || targetDirection != pendingDirection {
        pendingState, pendingDirection, hasPending, pendingBars := targetState, targetDirection, true, 1;
        stateBars := stateBars + 1;
        return;
      }
      pendingBars := pendingBars + 1;
      if pendingBars >= confirmBars {
        state, direction := targetState, targetDirection;
        pendingBars, stateBars := 0, 1;
      } else {
        stateBars := stateBars + 1;
      }
    }

    method Release(targetState: State, targetDirection: Bias)
      requires Valid()
      modifies this
      ensures Valid() && events == old(events) + [Fast(Pair(targetState, targetDirection))]
      ensures state == targetState && direction == targetDirection
    {
      hide After;
      ghost var e := Fast(Pair(targetState, targetDirection));
      AfterSnoc(initial, confirmBars, events, e);
      state, direction := targetState, targetDirection;
      pendingState, pendingDirection, hasPending, pendingBars := targetState, targetDirection, false, 0;
      stateBars := 1;
      events := events + [e];
    }
  }
}
