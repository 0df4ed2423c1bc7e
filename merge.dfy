/**
 Merging the statistics of two logs (two halves, or two games). Per-team
 counts and possession seconds are summed; label-keyed counts are merged as a
 union, summing where a label occurs on both sides.
 */
module Merge {
  import opened Wrappers
  import opened Events
  import opened Aggregates

  /** Each team of `mine` gets its own value plus the other side's. */
  function PerTeamSum(mine: map<Team, int>, theirs: map<Team, int>): map<Team, int>
    requires mine.Keys <= theirs.Keys
  {
    map t | t in mine :: mine[t] + theirs[t]
  }

  /**
   The loop shared by the source's score, duel and possession merges: each
   team of the left operand gets the sum of both values.
   */
  method AddPerTeam(mine: map<Team, int>, theirs: map<Team, int>) returns (sum: map<Team, int>)
    requires mine.Keys <= theirs.Keys
    ensures sum.Keys == mine.Keys
    ensures forall t | t in sum :: sum[t] == mine[t] + theirs[t]
    ensures sum == PerTeamSum(mine, theirs)
  {
    sum := map[];
    var rest := mine.Keys;
    while rest != {}
      invariant rest <= mine.Keys
      invariant sum.Keys == mine.Keys - rest
      invariant forall t | t in sum :: sum[t] == mine[t] + theirs[t]
      decreases rest
    {
      var t :| t in rest;
      sum := sum[t := mine[t] + theirs[t]];
      rest := rest - {t};
    }
  }

  /** Every label of either side, with the summed count where both have it. */
  function LabelUnion<L>(mine: map<L, int>, theirs: map<L, int>): map<L, int>
  {
    map l | l in mine.Keys + theirs.Keys ::
      if l in mine && l in theirs then mine[l] + theirs[l]
      else if l in mine then mine[l]
      else theirs[l]
  }

  /** Every match team gets the union of both sides' labels; a team missing on the left gets none. */
  function LabelMerge<L>(teams: set<Team>, mine: map<Team, map<L, int>>, theirs: map<Team, map<L, int>>): map<Team, map<L, int>>
    requires mine.Keys <= theirs.Keys
  {
    map t | t in teams :: if t in mine then LabelUnion(mine[t], theirs[t]) else map[]
  }

  /**
   The two inner loops of the source's label merges: first every label of the
   left side, summed when the right side has it too, then every label only the
   right side has.
   */
  method UnionLabels<L>(mine: map<L, int>, theirs: map<L, int>) returns (u: map<L, int>)
    ensures u == LabelUnion(mine, theirs)
  {
    u := map[];
    var rest := mine.Keys;
    while rest != {}
      invariant rest <= mine.Keys
      invariant u.Keys == mine.Keys - rest
      invariant forall l | l in u :: u[l] == if l in theirs then mine[l] + theirs[l] else mine[l]
      decreases rest
    {
      var l :| l in rest;
      if l in theirs {
        u := u[l := mine[l] + theirs[l]];
      } else {
        u := u[l := mine[l]];
      }
      rest := rest - {l};
    }
    rest := theirs.Keys;
    while rest != {}
      invariant rest <= theirs.Keys
      invariant u.Keys == mine.Keys + (theirs.Keys - rest)
      invariant forall l | l in u :: u[l] == LabelUnion(mine, theirs)[l]
      decreases rest
    {
      var l :| l in rest;
      if l !in u {
        u := u[l := theirs[l]];
      }
      rest := rest - {l};
    }
  }

  /**
   The source's shot-type and shot-origin merges: every match team starts with
   no labels, and each team of the left side gets the union of both sides.
   */
  method AddLabelCounts<L>(teams: set<Team>, mine: map<Team, map<L, int>>, theirs: map<Team, map<L, int>>)
    returns (merged: map<Team, map<L, int>>)
    requires mine.Keys <= teams && mine.Keys <= theirs.Keys
    ensures merged == LabelMerge(teams, mine, theirs)
  {
    merged := map t | t in teams :: map[];
    var rest := mine.Keys;
    while rest != {}
      invariant rest <= mine.Keys
      invariant merged.Keys == teams
      invariant forall t | t in teams :: merged[t] == if t in mine && t !in rest then LabelUnion(mine[t], theirs[t]) else map[]
      decreases rest
    {
      var t :| t in rest;
      var u := UnionLabels(mine[t], theirs[t]);
      merged := merged[t := u];
      rest := rest - {t};
    }
  }

  /** Merging the counts of two logs gives the counts of the joined log: nothing is lost. */
  lemma PerTeamCountsMergeLossless(teams: set<Team>, first: seq<Event>, second: seq<Event>, c: Counted)
    ensures PerTeamSum(PerTeamCounts(teams, first, c), PerTeamCounts(teams, second, c))
         == PerTeamCounts(teams, first + second, c)
  {
    forall t | t in teams
      ensures CountRows(first + second, FilterFor(c, t)) == CountRows(first, FilterFor(c, t)) + CountRows(second, FilterFor(c, t))
    {
      CountRowsAppend(first, second, FilterFor(c, t));
    }
  }

  /** For one team, merging the shot types of two logs gives the shot types of the joined log. */
  lemma TeamShotTypesMergeLossless(labels: seq<Label>, first: seq<Event>, second: seq<Event>, t: Team)
    ensures LabelUnion(ShotTypesFor(labels, first, t), ShotTypesFor(labels, second, t))
         == ShotTypesFor(labels, first + second, t)
  {
    var merged := LabelUnion(ShotTypesFor(labels, first, t), ShotTypesFor(labels, second, t));
    var whole := ShotTypesFor(labels, first + second, t);
    forall l
      ensures CountRows(first + second, ShotTypeBy(t, l)) == CountRows(first, ShotTypeBy(t, l)) + CountRows(second, ShotTypeBy(t, l))
    {
      CountRowsAppend(first, second, ShotTypeBy(t, l));
    }
    assert merged.Keys == whole.Keys;
  }

  /** Merging the shot types of two logs gives the shot types of the joined log: nothing is lost. */
  lemma ShotTypesMergeLossless(teams: set<Team>, labels: seq<Label>, first: seq<Event>, second: seq<Event>)
    ensures LabelMerge(teams, ShotTypesOf(teams, labels, first), ShotTypesOf(teams, labels, second))
         == ShotTypesOf(teams, labels, first + second)
  {
    forall t | t in teams
      ensures LabelUnion(ShotTypesFor(labels, first, t), ShotTypesFor(labels, second, t))
           == ShotTypesFor(labels, first + second, t)
    {
      TeamShotTypesMergeLossless(labels, first, second, t);
    }
  }

  /** With the same teams on both sides, merging per-team values does not depend on the order. */
  lemma PerTeamSumCommutes(mine: map<Team, int>, theirs: map<Team, int>)
    requires mine.Keys == theirs.Keys
    ensures PerTeamSum(mine, theirs) == PerTeamSum(theirs, mine)
  {
  }

  /** Merging label counts does not depend on the order of the operands. */
  lemma LabelUnionCommutes<L>(mine: map<L, int>, theirs: map<L, int>)
    ensures LabelUnion(mine, theirs) == LabelUnion(theirs, mine)
  {
  }

  /** Merging label counts is associative, so many games can be merged in any grouping. */
  lemma LabelUnionAssociates<L>(a: map<L, int>, b: map<L, int>, c: map<L, int>)
    ensures LabelUnion(LabelUnion(a, b), c) == LabelUnion(a, LabelUnion(b, c))
  {
  }
}
