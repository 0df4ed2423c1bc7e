/**
 The statistics object of one event log. It keeps the marker list built by the
 possession pass and remembers each statistic the first time it is asked for;
 two objects merge into a new one whose statistics are all given.
 */
module Statistics {
  import opened Wrappers
  import opened Events
  import opened Possession
  import opened Aggregates
  import opened Origins
  import opened Merge

  class Stats {
    /** The two match teams, fixed at construction. */
    const teams: set<Team>
    /** The event log, read once at construction and never changed. */
    const events: seq<Event>
    /** The vocabulary of shot-type labels. */
    const shotTypeLabels: seq<Label>
    /** True for an object made by merging two others: it has no log, only statistics. */
    const dummy: bool

    var possessionList: seq<Marker>
    var score: Option<map<Team, int>>
    var possession: Option<map<Team, int>>
    var duels: Option<map<Team, int>>
    var shotTypes: Option<map<Team, map<Label, int>>>
    var shotOrigins: Option<map<Team, map<Option<Tag>, int>>>

    /**
     The object invariant. Every statistic that is present belongs to the match
     teams; for an object with a log, every remembered value is the one the log
     determines, and a non-empty marker list is the one the log builds.
     A merged object has every statistic present.
     */
    ghost predicate Valid()
      reads this
    {
      && (score.Some? ==> score.value.Keys == teams)
      && (possession.Some? ==> possession.value.Keys == teams)
      && (duels.Some? ==> duels.value.Keys == teams)
      && (shotTypes.Some? ==> shotTypes.value.Keys == teams)
      && (shotOrigins.Some? ==> shotOrigins.value.Keys == teams)
      && (dummy ==> score.Some? && possession.Some? && duels.Some? && shotTypes.Some? && shotOrigins.Some?)
      && (!dummy ==>
        && LostTeamsKnown(teams, events)
        && (possessionList == [] || Reconstruct(teams, events) == Some(possessionList))
        && (score.Some? ==> score.value == ScoreOf(teams, events))
        && (duels.Some? ==> duels.value == DuelsOf(teams, events))
        && (shotTypes.Some? ==> shotTypes.value == ShotTypesOf(teams, shotTypeLabels, events))
        && (possession.Some? ==>
              && Reconstruct(teams, events).Some?
              && Convertible(teams, Reconstruct(teams, events).value)
              && IsPossessionTally(teams, Reconstruct(teams, events).value, possession.value))
        && (shotOrigins.Some? ==>
              && AllAttributed(teams, ShotRecords(teams, events))
              && IsOriginTally(teams, ShotRecords(teams, events), shotOrigins.value)))
    }

    /** A statistics object over one log; nothing is computed yet. */
    constructor (teams: set<Team>, events: seq<Event>, shotTypeLabels: seq<Label>)
      requires LostTeamsKnown(teams, events)
      ensures Valid() && !dummy
      ensures this.teams == teams && this.events == events && this.shotTypeLabels == shotTypeLabels
      ensures possessionList == []
      ensures score.None? && possession.None? && duels.None? && shotTypes.None? && shotOrigins.None?
    {
      this.teams := teams;
      this.events := events;
      this.shotTypeLabels := shotTypeLabels;
      dummy := false;
      possessionList := [];
      score, possession, duels, shotTypes, shotOrigins := None, None, None, None, None;
    }

    /** The object `__add__` builds: no log, every statistic given. */
    constructor Merged(teams: set<Team>, score: map<Team, int>, possession: map<Team, int>, duels: map<Team, int>,
                       shotTypes: map<Team, map<Label, int>>, shotOrigins: map<Team, map<Option<Tag>, int>>)
      requires score.Keys == teams && possession.Keys == teams && duels.Keys == teams
      requires shotTypes.Keys == teams && shotOrigins.Keys == teams
      ensures Valid() && dummy && this.teams == teams
      ensures this.score == Some(score) && this.possession == Some(possession) && this.duels == Some(duels)
      ensures this.shotTypes == Some(shotTypes) && this.shotOrigins == Some(shotOrigins)
    {
      this.teams := teams;
      events := [];
      shotTypeLabels := [];
      dummy := true;
      possessionList := [];
      this.score, this.possession, this.duels := Some(score), Some(possession), Some(duels);
      this.shotTypes, this.shotOrigins := Some(shotTypes), Some(shotOrigins);
    }

    /**
     The effect of row `e` at position `index` on the marker list, as Step
     describes it; `ok` is false where the source raises an IndexError, and the
     list is then left as it was.
     */
    method NotePossession(e: Event, index: nat) returns (ok: bool)
      requires LostTeamKnown(teams, e)
      modifies this`possessionList
      ensures (if ok then Some(possessionList) else None) == Step(teams, old(possessionList), e, index == 0)
      ensures !ok ==> possessionList == old(possessionList)
    {
      var kind := Classify(e.event);
      if kind != Unknown && index != 0 && possessionList == [] {
        return false;
      }
      ok := true;
      if kind == Gained {
        if index == 0 || Some(e.team) != Last(possessionList).holder {
          possessionList := possessionList + [Marker(Some(e.team), Some(e.time))];
        }
      } else if kind == Lost {
        var other := Opposite(teams, e.team);
        if index == 0 || Some(other) != Last(possessionList).holder {
          possessionList := possessionList + [Marker(Some(other), Some(e.time))];
        }
      } else if kind == Await {
        if index != 0 && Last(possessionList).holder != None {
          possessionList := possessionList + [Marker(None, Some(e.time))];
        }
      } else {
        possessionList := possessionList + [Marker(None, None)];
      }
    }

    /**
     Builds the marker list from the log, row by row, but only while the list is
     empty: once built, calling again changes nothing. `ok` is false where the
     source raises, and the list is then still empty.
     */
    method MakePossessionList() returns (ok: bool)
      requires Valid() && !dummy
      modifies this`possessionList
      ensures Valid()
      ensures old(possessionList) != [] ==> ok && possessionList == old(possessionList)
      ensures ok <==> Reconstruct(teams, events).Some?
      ensures ok ==> Reconstruct(teams, events) == Some(possessionList)
      ensures !ok ==> possessionList == []
    {
      if possessionList != [] {
        return true;
      }
      for i := 0 to |events|
        invariant LostTeamsKnown(teams, events[..i])
        invariant Reconstruct(teams, events[..i]) == Some(possessionList)
      {
        LostTeamsKnownPrefix(teams, events, i + 1);
        assert events[..i + 1][..i] == events[..i];
        assert events[i] in events;
        ok := NotePossession(events[i], i);
        if !ok {
          FailurePersists(teams, events, i + 1);
          return false;
        }
      }
      assert events[..|events|] == events;
      ok := true;
    }

    /** The score: every match team with its number of goal rows, computed once. */
    method GetScore() returns (r: map<Team, int>)
      requires Valid()
      modifies this`score
      ensures Valid() && score == Some(r)
      ensures old(score).Some? ==> r == old(score).value
      ensures !dummy ==> r == ScoreOf(teams, events)
    {
      if score.None? {
        var counts := CountPerTeam(teams, events, Goals);
        score := Some(counts);
      }
      r := score.value;
    }

    /** The duels: every match team with its number of duel and interception rows, computed once. */
    method GetDuels() returns (r: map<Team, int>)
      requires Valid()
      modifies this`duels
      ensures Valid() && duels == Some(r)
      ensures old(duels).Some? ==> r == old(duels).value
      ensures !dummy ==> r == DuelsOf(teams, events)
    {
      if duels.None? {
        var counts := CountPerTeam(teams, events, Duels);
        duels := Some(counts);
      }
      r := duels.value;
    }

    /**
     Possession in seconds per match team, computed once from the marker list
     (which it builds first). None where building the list or converting a
     marker time fails; nothing is remembered then.
     */
    method GetPossession() returns (r: Option<map<Team, int>>)
      requires Valid()
      modifies this`possessionList, this`possession
      ensures Valid()
      ensures r.Some? ==> possession == r
      ensures old(possession).Some? ==> r == old(possession)
      ensures r.None? ==> possession.None?
      ensures !dummy ==>
        (r.Some? <==> Reconstruct(teams, events).Some? && Convertible(teams, Reconstruct(teams, events).value))
      ensures !dummy && r.Some? ==> IsPossessionTally(teams, Reconstruct(teams, events).value, r.value)
    {
      if possession.Some? {
        return possession;
      }
      var ok := MakePossessionList();
      if !ok {
        return None;
      }
      r := PossessionTotals(teams, possessionList);
      if r.Some? {
        possession := r;
      }
    }

    /** The shot types of every match team, computed once. */
    method GetShotTypes() returns (r: map<Team, map<Label, int>>)
      requires Valid()
      modifies this`shotTypes
      ensures Valid() && shotTypes == Some(r)
      ensures old(shotTypes).Some? ==> r == old(shotTypes).value
      ensures !dummy ==> r == ShotTypesOf(teams, shotTypeLabels, events)
    {
      if shotTypes.None? {
        var types := ShotTypesPerTeam(teams, shotTypeLabels, events);
        shotTypes := Some(types);
      }
      r := shotTypes.value;
    }

    /**
     The shot origins of every match team, computed once from the records of the
     shot-origin pass. None where a record has no match team.
     */
    method GetShotOrigins() returns (r: Option<map<Team, map<Option<Tag>, int>>>)
      requires Valid()
      modifies this`shotOrigins
      ensures Valid()
      ensures r.Some? ==> shotOrigins == r
      ensures old(shotOrigins).Some? ==> r == old(shotOrigins)
      ensures r.None? ==> shotOrigins.None?
      ensures !dummy ==> (r.Some? <==> AllAttributed(teams, ShotRecords(teams, events)))
      ensures !dummy && r.Some? ==> IsOriginTally(teams, ShotRecords(teams, events), r.value)
    {
      if shotOrigins.Some? {
        return shotOrigins;
      }
      var records := ShotOriginRecords(teams, events);
      r := TallyOrigins(teams, records);
      if r.Some? {
        shotOrigins := r;
      }
    }

    /**
     `self + other`: a new merged object over the same teams whose score,
     possession and duels are summed per team and whose shot types and origins
     are merged label by label. Every statistic must already be present on both
     sides, and every team of this object must be a team of the other.
     */
    method Add(other: Stats) returns (sum: Stats)
      requires Valid() && other.Valid()
      requires score.Some? && possession.Some? && duels.Some? && shotTypes.Some? && shotOrigins.Some?
      requires other.score.Some? && other.possession.Some? && other.duels.Some?
      requires other.shotTypes.Some? && other.shotOrigins.Some?
      requires teams <= other.teams
      ensures fresh(sum) && sum.Valid() && sum.dummy && sum.teams == teams
      ensures sum.score == Some(PerTeamSum(score.value, other.score.value))
      ensures sum.possession == Some(PerTeamSum(possession.value, other.possession.value))
      ensures sum.duels == Some(PerTeamSum(duels.value, other.duels.value))
      ensures sum.shotTypes == Some(LabelMerge(teams, shotTypes.value, other.shotTypes.value))
      ensures sum.shotOrigins == Some(LabelMerge(teams, shotOrigins.value, other.shotOrigins.value))
    {
      var s := AddPerTeam(score.value, other.score.value);
      var p := AddPerTeam(possession.value, other.possession.value);
      var d := AddPerTeam(duels.value, other.duels.value);
      var st := AddLabelCounts(teams, shotTypes.value, other.shotTypes.value);
      var so := AddLabelCounts(teams, shotOrigins.value, other.shotOrigins.value);
      sum := new Stats.Merged(teams, s, p, d, st, so);
    }
  }
}
