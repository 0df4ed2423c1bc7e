/**
 Counting statistics read straight off the event log: score, duels and shot
 types per team. Each is a count of the rows a filter selects.
 */
module Aggregates {
  import opened Wrappers
  import opened Events

  const Goal: Tag := "mål"
  const Shot: Tag := "skott"
  const ShotType: Tag := "skottyp"
  const DuelTags: set<Tag> := {"närkamp", "brytning"}

  /** The rows one statistic counts. */
  datatype RowFilter =
    | GoalsBy(team: Team)
    | DuelsBy(team: Team)
    | ShotTypeBy(team: Team, name: Label)
    | ShotsAndGoals

  predicate Selects(f: RowFilter, e: Event)
  {
    match f
    case GoalsBy(t) => e.event == Goal && e.team == t
    case DuelsBy(t) => e.event in DuelTags && e.team == t
    case ShotTypeBy(t, l) => e.event == ShotType && e.team == t && e.subevent == Some(l)
    case ShotsAndGoals => e.event == Shot || e.event == Goal
  }

  /** The number of rows of `events` that `f` selects. */
  function CountRows(events: seq<Event>, f: RowFilter): (n: nat)
    ensures n <= |events|
  {
    if events == [] then 0
    else CountRows(events[..|events| - 1], f) + (if Selects(f, events[|events| - 1]) then 1 else 0)
  }

  /** Counting distributes over joining two logs. */
  lemma {:induction false} CountRowsAppend(first: seq<Event>, second: seq<Event>, f: RowFilter)
    ensures CountRows(first + second, f) == CountRows(first, f) + CountRows(second, f)
    decreases |second|
  {
    if second == [] {
      assert first + second == first;
    } else {
      var both := first + second;
      assert both[..|both| - 1] == first + second[..|second| - 1];
      CountRowsAppend(first, second[..|second| - 1], f);
    }
  }

  /** A positive count means some row of the log is selected. */
  lemma {:induction false} CountRowsPositive(events: seq<Event>, f: RowFilter)
    ensures CountRows(events, f) > 0 <==> exists i | 0 <= i < |events| :: Selects(f, events[i])
  {
    if events != [] {
      var n := |events| - 1;
      CountRowsPositive(events[..n], f);
      if CountRows(events[..n], f) > 0 {
        var i :| 0 <= i < n && Selects(f, events[..n][i]);
        assert Selects(f, events[i]);
      }
      if exists i | 0 <= i < |events| :: Selects(f, events[i]) {
        var i :| 0 <= i < |events| && Selects(f, events[i]);
        if i < n {
          assert Selects(f, events[..n][i]);
        }
      }
    }
  }

  /** The two per-team counts the source keeps: goals (score) and duels. */
  datatype Counted = Goals | Duels

  function FilterFor(c: Counted, team: Team): RowFilter
  {
    match c
    case Goals => GoalsBy(team)
    case Duels => DuelsBy(team)
  }

  /** Every match team mapped to its count; rows of other teams count for nobody. */
  function PerTeamCounts(teams: set<Team>, events: seq<Event>, c: Counted): map<Team, int>
  {
    map t | t in teams :: CountRows(events, FilterFor(c, t))
  }

  function ScoreOf(teams: set<Team>, events: seq<Event>): map<Team, int>
  {
    PerTeamCounts(teams, events, Goals)
  }

  function DuelsOf(teams: set<Team>, events: seq<Event>): map<Team, int>
  {
    PerTeamCounts(teams, events, Duels)
  }

  /**
   Per team, the shot-type labels of the vocabulary that occur at least once for
   that team, each with its number of rows.
   */
  function ShotTypesOf(teams: set<Team>, labels: seq<Label>, events: seq<Event>): map<Team, map<Label, int>>
  {
    map t | t in teams :: ShotTypesFor(labels, events, t)
  }

  /** One team's shot types: the labels of the vocabulary it used, with their counts. */
  function ShotTypesFor(labels: seq<Label>, events: seq<Event>, team: Team): map<Label, int>
  {
    map l | l in labels && CountRows(events, ShotTypeBy(team, l)) > 0 :: CountRows(events, ShotTypeBy(team, l))
  }

  /**
   The score and duel loop of the source: every match team starts at zero and
   then gets the number of selected rows that carry its name.
   */
  method CountPerTeam(teams: set<Team>, events: seq<Event>, c: Counted) returns (counts: map<Team, int>)
    ensures counts.Keys == teams
    ensures forall t | t in teams :: counts[t] == CountRows(events, FilterFor(c, t))
    ensures counts == PerTeamCounts(teams, events, c)
  {
    counts := map t | t in teams :: 0;
    var rest := teams;
    while rest != {}
      invariant rest <= teams
      invariant counts.Keys == teams
      invariant forall t | t in teams - rest :: counts[t] == CountRows(events, FilterFor(c, t))
      decreases rest
    {
      var t :| t in rest;
      counts := counts[t := CountRows(events, FilterFor(c, t))];
      rest := rest - {t};
    }
  }

  /**
   The shot-type loop of the source: for each match team and each label of the
   vocabulary, the label is kept with its count when the count is positive.
   */
  method ShotTypesPerTeam(teams: set<Team>, labels: seq<Label>, events: seq<Event>)
    returns (types: map<Team, map<Label, int>>)
    ensures types.Keys == teams
    ensures forall t, l | t in teams ::
      (l in types[t] <==> l in labels && CountRows(events, ShotTypeBy(t, l)) > 0)
    ensures forall t, l | t in teams && l in types[t] :: types[t][l] == CountRows(events, ShotTypeBy(t, l))
    ensures types == ShotTypesOf(teams, labels, events)
  {
    types := map t | t in teams :: map[];
    var rest := teams;
    while rest != {}
      invariant rest <= teams
      invariant types.Keys == teams
      invariant forall t, l | t in teams - rest ::
        (l in types[t] <==> l in labels && CountRows(events, ShotTypeBy(t, l)) > 0)
      invariant forall t, l | t in teams - rest && l in types[t] :: types[t][l] == CountRows(events, ShotTypeBy(t, l))
      decreases rest
    {
      var t :| t in rest;
      var found: map<Label, int> := map[];
      for j := 0 to |labels|
        invariant forall l :: l in found <==> l in labels[..j] && CountRows(events, ShotTypeBy(t, l)) > 0
        invariant forall l | l in found :: found[l] == CountRows(events, ShotTypeBy(t, l))
      {
        var n := CountRows(events, ShotTypeBy(t, labels[j]));
        if n > 0 {
          found := found[labels[j] := n];
        }
      }
      assert labels[..|labels|] == labels;
      types := types[t := found];
      rest := rest - {t};
    }
    ShotTypesPerTeamIsShotTypesOf(teams, labels, events, types);
  }

  /** The loop computes the shot-type statistic. */
  lemma ShotTypesPerTeamIsShotTypesOf(teams: set<Team>, labels: seq<Label>, events: seq<Event>, types: map<Team, map<Label, int>>)
    requires types.Keys == teams
    requires forall t, l | t in teams ::
      (l in types[t] <==> l in labels && CountRows(events, ShotTypeBy(t, l)) > 0)
    requires forall t, l | t in teams && l in types[t] :: types[t][l] == CountRows(events, ShotTypeBy(t, l))
    ensures types == ShotTypesOf(teams, labels, events)
  {
    forall t | t in teams
      ensures types[t] == ShotTypesFor(labels, events, t)
    {
      assert types[t].Keys == ShotTypesFor(labels, events, t).Keys;
    }
  }

  /** A row whose team is not a match team changes neither score nor duels. */
  lemma {:induction false} ForeignRowIgnored(teams: set<Team>, events: seq<Event>, e: Event, c: Counted)
    requires e.team !in teams
    ensures PerTeamCounts(teams, events + [e], c) == PerTeamCounts(teams, events, c)
  {
    forall t | t in teams
      ensures CountRows(events + [e], FilterFor(c, t)) == CountRows(events, FilterFor(c, t))
    {
      CountRowsAppend(events, [e], FilterFor(c, t));
      assert [e][..0] == [];
    }
  }

  /**
   A label is among a team's shot types exactly when it is in the vocabulary and
   the log has a shot-type row of that team with that label; its count is then
   positive.
   */
  lemma ShotTypeIffRow(labels: seq<Label>, events: seq<Event>, t: Team, l: Label)
    ensures l in ShotTypesFor(labels, events, t)
        <==> l in labels && exists i | 0 <= i < |events| :: Selects(ShotTypeBy(t, l), events[i])
    ensures l in ShotTypesFor(labels, events, t) ==> ShotTypesFor(labels, events, t)[l] > 0
  {
    CountRowsPositive(events, ShotTypeBy(t, l));
  }
}
