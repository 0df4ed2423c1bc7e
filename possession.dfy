/**
 Possession reconstruction: one forward pass over the event log builds a list
 of markers (holder, time). Marker k says who holds the ball from its time until
 the time of marker k + 1; a holder of None means nobody does (a stoppage).
 */
module Possession {
  import opened Wrappers
  import opened Events

  /** A possession marker; `Marker(None, None)` is the sentinel left by an unrecognised tag. */
  datatype Marker = Marker(holder: Option<Team>, time: Option<nat>)

  function Last(markers: seq<Marker>): Marker
    requires markers != []
  {
    markers[|markers| - 1]
  }

  /**
   The effect of one row on the marker list. `first` is true for the row at
   index 0. None is the source's IndexError: a later row looks at the last
   marker of a list that is still empty.
   */
  function Step(teams: set<Team>, markers: seq<Marker>, e: Event, first: bool): (r: Option<seq<Marker>>)
    requires LostTeamKnown(teams, e)
    ensures r.None? <==> !first && markers == [] && Classify(e.event) != Unknown
    ensures r.Some? ==> markers <= r.value && |r.value| <= |markers| + 1
  {
    match Classify(e.event)
    case Gained =>
      if first then Some(markers + [Marker(Some(e.team), Some(e.time))])
      else if markers == [] then None
      else if Some(e.team) != Last(markers).holder then Some(markers + [Marker(Some(e.team), Some(e.time))])
      else Some(markers)
    case Lost =>
      var other := Opposite(teams, e.team);
      if first then Some(markers + [Marker(Some(other), Some(e.time))])
      else if markers == [] then None
      else if Some(other) != Last(markers).holder then Some(markers + [Marker(Some(other), Some(e.time))])
      else Some(markers)
    case Await =>
      if first then Some(markers)
      else if markers == [] then None
      else if Last(markers).holder != None then Some(markers + [Marker(None, Some(e.time))])
      else Some(markers)
    case Unknown =>
      Some(markers + [Marker(None, None)])
  }

  /**
   The rule for each tag class. A gain or a loss appends its new holder only
   on the first row or when that holder differs from the last marker's; an
   await row appends "nobody" only after the first row and when somebody held
   the ball; an unrecognised tag always appends the sentinel.
   */
  lemma StepRules(teams: set<Team>, markers: seq<Marker>, e: Event, first: bool)
    requires LostTeamKnown(teams, e)
    requires first || markers != []
    ensures Classify(e.event) == Gained ==>
      Step(teams, markers, e, first) ==
        if first || Last(markers).holder != Some(e.team)
        then Some(markers + [Marker(Some(e.team), Some(e.time))]) else Some(markers)
    ensures Classify(e.event) == Lost ==>
      var other := Opposite(teams, e.team);
      Step(teams, markers, e, first) ==
        if first || Last(markers).holder != Some(other)
        then Some(markers + [Marker(Some(other), Some(e.time))]) else Some(markers)
    ensures Classify(e.event) == Await ==>
      Step(teams, markers, e, first) ==
        if !first && Last(markers).holder.Some?
        then Some(markers + [Marker(None, Some(e.time))]) else Some(markers)
    ensures Classify(e.event) == Unknown ==> Step(teams, markers, e, first) == Some(markers + [Marker(None, None)])
  {
  }

  /** Every marker that has no time is the sentinel: it has no holder either. */
  ghost predicate SentinelsOnlyUntimed(markers: seq<Marker>)
  {
    forall k | 0 <= k < |markers| :: markers[k].time.None? ==> markers[k].holder.None?
  }

  /**
   The marker list built from the whole log, or None when building it fails.
   Each row adds at most one marker, so there are never more markers than rows.
   */
  function Reconstruct(teams: set<Team>, events: seq<Event>): (r: Option<seq<Marker>>)
    requires LostTeamsKnown(teams, events)
    ensures r.Some? ==> |r.value| <= |events|
    ensures r.Some? ==> SentinelsOnlyUntimed(r.value)
  {
    if events == [] then Some([])
    else
      var n := |events| - 1;
      assert LostTeamsKnown(teams, events[..n]) by {
        forall e | e in events[..n] ensures LostTeamKnown(teams, e) {
          assert e in events;
        }
      }
      match Reconstruct(teams, events[..n])
      case None => None
      case Some(markers) => Step(teams, markers, events[n], n == 0)
  }

  lemma LostTeamsKnownPrefix(teams: set<Team>, events: seq<Event>, n: nat)
    requires LostTeamsKnown(teams, events) && n <= |events|
    ensures LostTeamsKnown(teams, events[..n])
  {
    forall e | e in events[..n] ensures LostTeamKnown(teams, e) {
      assert e in events;
    }
  }

  /** Once building fails on a prefix of the log, it fails on the whole log (the source's exception ends the pass). */
  lemma {:induction false} FailurePersists(teams: set<Team>, events: seq<Event>, n: nat)
    requires LostTeamsKnown(teams, events) && n <= |events|
    requires LostTeamsKnown(teams, events[..n]) && Reconstruct(teams, events[..n]).None?
    ensures Reconstruct(teams, events).None?
    decreases |events| - n
  {
    if n < |events| {
      LostTeamsKnownPrefix(teams, events, n + 1);
      assert events[..n + 1][..n] == events[..n];
      FailurePersists(teams, events, n + 1);
    } else {
      assert events[..n] == events;
    }
  }

  /** The marker list stays empty exactly when the log is empty or is a single await row. */
  lemma {:induction false} EmptyOnlyAfterLeadingAwait(teams: set<Team>, events: seq<Event>)
    requires LostTeamsKnown(teams, events)
    ensures Reconstruct(teams, events) == Some([])
        <==> events == [] || (|events| == 1 && Classify(events[0].event) == Await)
  {
    if events != [] {
      var n := |events| - 1;
      LostTeamsKnownPrefix(teams, events, n);
      EmptyOnlyAfterLeadingAwait(teams, events[..n]);
    }
  }

  /**
   Building the marker list fails exactly when the first row is an await row and
   the second row carries a recognised tag: the second row then reads the last
   marker of a list that is still empty.
   */
  lemma {:induction false} ReconstructFailsIff(teams: set<Team>, events: seq<Event>)
    requires LostTeamsKnown(teams, events)
    ensures Reconstruct(teams, events).None?
        <==> |events| >= 2 && Classify(events[0].event) == Await && Classify(events[1].event) != Unknown
  {
    if |events| >= 2 {
      var n := |events| - 1;
      LostTeamsKnownPrefix(teams, events, n);
      ReconstructFailsIff(teams, events[..n]);
      EmptyOnlyAfterLeadingAwait(teams, events[..n]);
    }
  }

  /** Consecutive markers never share a holder. */
  ghost predicate Alternating(markers: seq<Marker>)
  {
    forall k | 0 <= k < |markers| - 1 :: markers[k].holder != markers[k + 1].holder
  }

  /**
   When every tag of the log is recognised, no two consecutive markers have the
   same holder: repeated gains by one team collapse into a single marker.
   */
  lemma {:induction false} RecognisedLogAlternates(teams: set<Team>, events: seq<Event>)
    requires LostTeamsKnown(teams, events)
    requires forall e | e in events :: Classify(e.event) != Unknown
    requires Reconstruct(teams, events).Some?
    ensures Alternating(Reconstruct(teams, events).value)
  {
    if events != [] {
      var n := |events| - 1;
      LostTeamsKnownPrefix(teams, events, n);
      assert events[n] in events;
      forall e | e in events[..n] ensures Classify(e.event) != Unknown {
        assert e in events;
      }
      RecognisedLogAlternates(teams, events[..n]);
    }
  }

  /** A second gain by the team that just gained the ball leaves the marker list as it is. */
  lemma RepeatedGainCollapses(teams: set<Team>, markers: seq<Marker>, e: Event, first: bool, again: Event)
    requires Classify(e.event) == Gained && Classify(again.event) == Gained && again.team == e.team
    requires Step(teams, markers, e, first).Some?
    ensures Step(teams, Step(teams, markers, e, first).value, again, false) == Step(teams, markers, e, first)
  {
  }

  /** Adjacent markers that both have a time are in time order. */
  ghost predicate TimesNonDecreasing(markers: seq<Marker>)
  {
    forall k | 0 <= k < |markers| - 1 ::
      markers[k].time.Some? && markers[k + 1].time.Some? ==> markers[k].time.value <= markers[k + 1].time.value
  }

  /**
   When row times never decrease, marker times never decrease either, and no
   marker is later than the last row.
   */
  lemma {:induction false} MarkerTimesOrdered(teams: set<Team>, events: seq<Event>)
    requires LostTeamsKnown(teams, events) && TimesSorted(events)
    requires Reconstruct(teams, events).Some?
    ensures TimesNonDecreasing(Reconstruct(teams, events).value)
    ensures events != [] ==>
      forall k | 0 <= k < |Reconstruct(teams, events).value| ::
        Reconstruct(teams, events).value[k].time.Some? ==>
          Reconstruct(teams, events).value[k].time.value <= events[|events| - 1].time
  {
    if events != [] {
      var n := |events| - 1;
      LostTeamsKnownPrefix(teams, events, n);
      assert TimesSorted(events[..n]);
      MarkerTimesOrdered(teams, events[..n]);
      if n > 0 {
        assert events[n - 1].time <= events[n].time;
      }
    }
  }

  /** Seconds between marker k and marker k + 1; a missing time counts as no time. */
  function Gap(markers: seq<Marker>, k: nat): int
    requires k + 1 < |markers|
  {
    if markers[k].time.Some? && markers[k + 1].time.Some?
    then markers[k + 1].time.value - markers[k].time.value
    else 0
  }

  /** Seconds for which `holder` held the ball over the first `k` intervals. */
  function TimeHeld(markers: seq<Marker>, holder: Option<Team>, k: nat): int
    requires k == 0 || k < |markers|
  {
    if k == 0 then 0
    else TimeHeld(markers, holder, k - 1) + (if markers[k - 1].holder == holder then Gap(markers, k - 1) else 0)
  }

  /** The number of closed intervals: the last marker has no end and counts for nothing. */
  function Intervals(markers: seq<Marker>): nat
  {
    if markers == [] then 0 else |markers| - 1
  }

  /** Possession of `team`: the sum of the intervals that start at one of its markers. */
  function HeldTime(markers: seq<Marker>, team: Team): int
  {
    TimeHeld(markers, Some(team), Intervals(markers))
  }

  /**
   Every interval held by a match team has times at both ends, so the source's
   conversion of both times to seconds succeeds.
   */
  ghost predicate Convertible(teams: set<Team>, markers: seq<Marker>)
  {
    forall k | 0 <= k < |markers| - 1 ::
      markers[k].holder.Some? && markers[k].holder.value in teams ==>
        markers[k].time.Some? && markers[k + 1].time.Some?
  }

  /** `totals` gives every match team, and nothing else, its possession time in seconds. */
  ghost predicate IsPossessionTally(teams: set<Team>, markers: seq<Marker>, totals: map<Team, int>)
  {
    totals.Keys == teams && forall t | t in teams :: totals[t] == HeldTime(markers, t)
  }

  /**
   The possession loop of the source: every match team starts at zero and the
   interval from marker i to marker i + 1 is added to marker i's holder when that
   holder is a match team. None when such an interval ends at the sentinel.
   */
  method PossessionTotals(teams: set<Team>, markers: seq<Marker>) returns (r: Option<map<Team, int>>)
    ensures r.Some? <==> Convertible(teams, markers)
    ensures r.Some? ==> IsPossessionTally(teams, markers, r.value)
  {
    var totals := map t | t in teams :: 0;
    var i := 0;
    while i + 1 < |markers|
      invariant i == 0 || i < |markers|
      invariant forall k | 0 <= k < i ::
        markers[k].holder.Some? && markers[k].holder.value in teams ==>
          markers[k].time.Some? && markers[k + 1].time.Some?
      invariant totals.Keys == teams
      invariant forall t | t in teams :: totals[t] == TimeHeld(markers, Some(t), i)
    {
      var holder := markers[i].holder;
      if holder.Some? && holder.value in teams {
        if markers[i + 1].time.None? || markers[i].time.None? {
          return None;
        }
        totals := totals[holder.value := totals[holder.value] + (markers[i + 1].time.value - markers[i].time.value)];
      }
      i := i + 1;
    }
    return Some(totals);
  }

  lemma {:induction false} TimeHeldNonNegative(markers: seq<Marker>, holder: Option<Team>, k: nat)
    requires k == 0 || k < |markers|
    requires TimesNonDecreasing(markers)
    ensures TimeHeld(markers, holder, k) >= 0
  {
    if k > 0 {
      TimeHeldNonNegative(markers, holder, k - 1);
    }
  }

  /** With row times that never decrease, every team's possession time is non-negative. */
  lemma PossessionNonNegative(teams: set<Team>, events: seq<Event>, team: Team)
    requires LostTeamsKnown(teams, events) && TimesSorted(events)
    requires Reconstruct(teams, events).Some?
    ensures HeldTime(Reconstruct(teams, events).value, team) >= 0
  {
    var markers := Reconstruct(teams, events).value;
    MarkerTimesOrdered(teams, events);
    TimeHeldNonNegative(markers, Some(team), Intervals(markers));
  }

  /**
   Time adds up: when every marker has a time and every holder is one of the two
   teams or nobody, the two possession times plus the time nobody held the ball
   equal the time from the first marker to marker k.
   */
  lemma {:induction false} TimeAddsUp(teams: set<Team>, markers: seq<Marker>, a: Team, b: Team, k: nat)
    requires teams == {a, b} && a != b && k < |markers|
    requires forall j | 0 <= j < |markers| :: markers[j].time.Some?
    requires forall j | 0 <= j < |markers| :: markers[j].holder.None? || markers[j].holder.value in teams
    ensures TimeHeld(markers, Some(a), k) + TimeHeld(markers, Some(b), k) + TimeHeld(markers, None, k)
         == markers[k].time.value - markers[0].time.value
  {
    if k > 0 {
      TimeAddsUp(teams, markers, a, b, k - 1);
    }
  }
}
