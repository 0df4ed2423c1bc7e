/**
 Shot origins: a second forward pass over the log remembers which team holds
 the ball, through which event it got it and when; every shot or goal records
 that state. The records are then counted per team and origin.
 */
module Origins {
  import opened Wrappers
  import opened Events
  import opened Aggregates

  /** The three state variables of the pass: possession team, the tag that gained it, and when. */
  datatype Possessor = Possessor(team: Option<Team>, gained: Option<Tag>, since: nat)

  /** The state before the first row. */
  const Kickoff: Possessor := Possessor(None, None, 0)

  /** One record per shot or goal: who had the ball, from which event, for how long, and whether it went in. */
  datatype ShotRecord = ShotRecord(team: Option<Team>, origin: Option<Tag>, attackTime: int, goal: bool)

  predicate IsShotOrGoal(e: Event)
  {
    Selects(ShotsAndGoals, e)
  }

  /**
   The state change of one row. A shot or goal never changes it; a gain by a new
   team or any restart hands the ball to the row's team; a loss by the team in
   possession hands it to the other team.
   */
  function Advance(teams: set<Team>, s: Possessor, e: Event): (s': Possessor)
    requires LostTeamKnown(teams, e)
    ensures IsShotOrGoal(e) ==> s' == s
    ensures s' != s ==> s'.team.Some? && s'.gained == Some(e.event) && s'.since == e.time
  {
    if IsShotOrGoal(e) then s
    else if (e.event in PossessionGained && Some(e.team) != s.team) || e.event in StartOfPlay then
      Possessor(Some(e.team), Some(e.event), e.time)
    else if e.event in PossessionLost && Some(e.team) == s.team then
      Possessor(Some(Opposite(teams, e.team)), Some(e.event), e.time)
    else s
  }

  /** The state after the whole log; a team is known exactly when the gaining tag is. */
  function StateAfter(teams: set<Team>, events: seq<Event>): (s: Possessor)
    requires LostTeamsKnown(teams, events)
    ensures s.team.Some? <==> s.gained.Some?
  {
    if events == [] then Kickoff
    else
      var n := |events| - 1;
      assert LostTeamsKnown(teams, events[..n]) by {
        forall e | e in events[..n] ensures LostTeamKnown(teams, e) {
          assert e in events;
        }
      }
      Advance(teams, StateAfter(teams, events[..n]), events[n])
  }

  /** What a shot or goal row records in state `s`. */
  function RecordAt(s: Possessor, e: Event): ShotRecord
  {
    ShotRecord(s.team, s.gained, e.time - s.since, e.event == Goal)
  }

  /**
   The records of the pass: exactly one per shot or goal row, and a record
   names a team exactly when it names an origin.
   */
  function ShotRecords(teams: set<Team>, events: seq<Event>): (records: seq<ShotRecord>)
    requires LostTeamsKnown(teams, events)
    ensures |records| == CountRows(events, ShotsAndGoals)
    ensures forall r | r in records :: r.team.Some? <==> r.origin.Some?
  {
    if events == [] then []
    else
      var n := |events| - 1;
      assert LostTeamsKnown(teams, events[..n]) by {
        forall e | e in events[..n] ensures LostTeamKnown(teams, e) {
          assert e in events;
        }
      }
      var before := ShotRecords(teams, events[..n]);
      if IsShotOrGoal(events[n]) then before + [RecordAt(StateAfter(teams, events[..n]), events[n])]
      else before
  }

  /**
   The source's shot-origin pass, with its three state variables updated row
   by row; it produces the records of ShotRecords.
   */
  method ShotOriginRecords(teams: set<Team>, events: seq<Event>) returns (records: seq<ShotRecord>)
    requires LostTeamsKnown(teams, events)
    ensures records == ShotRecords(teams, events)
  {
    var possessionTeam: Option<Team> := None;
    var possessionGained: Option<Tag> := None;
    var timeGained: nat := 0;
    records := [];
    for i := 0 to |events|
      invariant LostTeamsKnown(teams, events[..i])
      invariant Possessor(possessionTeam, possessionGained, timeGained) == StateAfter(teams, events[..i])
      invariant records == ShotRecords(teams, events[..i])
    {
      var row := events[i];
      assert events[..i + 1][..i] == events[..i];
      assert row in events;
      if row.event == Shot || row.event == Goal {
        records := records + [ShotRecord(possessionTeam, possessionGained, row.time - timeGained, row.event == Goal)];
      } else if (row.event in PossessionGained && Some(row.team) != possessionTeam) || row.event in StartOfPlay {
        possessionTeam := Some(row.team);
        possessionGained := Some(row.event);
        timeGained := row.time;
      } else if row.event in PossessionLost && Some(row.team) == possessionTeam {
        possessionTeam := Some(Opposite(teams, row.team));
        possessionGained := Some(row.event);
        timeGained := row.time;
      }
      assert LostTeamsKnown(teams, events[..i + 1]) by {
        forall e | e in events[..i + 1] ensures LostTeamKnown(teams, e) {
          assert e in events;
        }
      }
    }
    assert events[..|events|] == events;
  }

  /** The number of records attributed to `team` with origin `origin`. */
  function OriginCount(records: seq<ShotRecord>, team: Team, origin: Option<Tag>): nat
  {
    if records == [] then 0
    else
      var r := records[|records| - 1];
      OriginCount(records[..|records| - 1], team, origin) + (if r.team == Some(team) && r.origin == origin then 1 else 0)
  }

  /** The number of records attributed to `team`. */
  function ShotsFor(records: seq<ShotRecord>, team: Team): nat
  {
    if records == [] then 0
    else ShotsFor(records[..|records| - 1], team) + (if records[|records| - 1].team == Some(team) then 1 else 0)
  }

  /** The sum of the values of a map. */
  ghost function SumValues<K>(m: map<K, int>): int
    decreases |m.Keys|
  {
    if m.Keys == {} then 0
    else
      var k :| k in m.Keys;
      m[k] + SumValues(m - {k})
  }

  lemma {:induction false} SumValuesRemove<K>(m: map<K, int>, k: K)
    requires k in m
    ensures SumValues(m) == m[k] + SumValues(m - {k})
    decreases |m.Keys|
  {
    var j :| j in m.Keys && SumValues(m) == m[j] + SumValues(m - {j});
    if j != k {
      SumValuesRemove(m - {j}, k);
      SumValuesRemove(m - {k}, j);
      assert (m - {j}) - {k} == (m - {k}) - {j};
    }
  }

  /** Setting one key to `v` changes the sum by the difference. */
  lemma SumValuesUpdate<K>(m: map<K, int>, k: K, v: int)
    ensures SumValues(m[k := v]) == SumValues(m) - (if k in m then m[k] else 0) + v
  {
    SumValuesRemove(m[k := v], k);
    assert m[k := v] - {k} == m - {k};
    if k in m {
      SumValuesRemove(m, k);
    } else {
      assert m - {k} == m;
    }
  }

  /** Every record names a match team, so the source's per-team lookup succeeds. */
  predicate AllAttributed(teams: set<Team>, records: seq<ShotRecord>)
  {
    forall r | r in records :: r.team.Some? && r.team.value in teams
  }

  /** `tally` gives every match team the count of each origin that occurs for it, and nothing else. */
  ghost predicate IsOriginTally(teams: set<Team>, records: seq<ShotRecord>, tally: map<Team, map<Option<Tag>, int>>)
  {
    && tally.Keys == teams
    && (forall t, o | t in teams :: o in tally[t] <==> OriginCount(records, t, o) > 0)
    && (forall t, o | t in teams && o in tally[t] :: tally[t][o] == OriginCount(records, t, o))
  }

  /** One more record for `team` with `origin`: that count goes up by one, or starts at one. */
  function Bump(counts: map<Option<Tag>, int>, origin: Option<Tag>): map<Option<Tag>, int>
  {
    counts[origin := if origin in counts then counts[origin] + 1 else 1]
  }

  /** Adding one attributed record to a correct tally keeps it correct, and its team's sum grows by one. */
  lemma TallyStep(teams: set<Team>, records: seq<ShotRecord>, tally: map<Team, map<Option<Tag>, int>>, rec: ShotRecord)
    requires IsOriginTally(teams, records, tally)
    requires forall t | t in teams :: SumValues(tally[t]) == ShotsFor(records, t)
    requires rec.team.Some? && rec.team.value in teams
    ensures IsOriginTally(teams, records + [rec], tally[rec.team.value := Bump(tally[rec.team.value], rec.origin)])
    ensures forall t | t in teams ::
      SumValues(tally[rec.team.value := Bump(tally[rec.team.value], rec.origin)][t]) == ShotsFor(records + [rec], t)
  {
    var more := records + [rec];
    assert more[..|more| - 1] == records;
    var team := rec.team.value;
    var counts := tally[team];
    SumValuesUpdate(counts, rec.origin, if rec.origin in counts then counts[rec.origin] + 1 else 1);
  }

  /**
   The source's shot-origin counting: per record, the count of its team and
   origin goes up by one. None when a record's team is not a match team (the
   source's lookup fails). Each team's counts add up to its number of records.
   */
  method TallyOrigins(teams: set<Team>, records: seq<ShotRecord>) returns (r: Option<map<Team, map<Option<Tag>, int>>>)
    ensures r.Some? <==> AllAttributed(teams, records)
    ensures r.Some? ==> IsOriginTally(teams, records, r.value)
    ensures r.Some? ==> forall t | t in teams :: SumValues(r.value[t]) == ShotsFor(records, t)
  {
    var tally: map<Team, map<Option<Tag>, int>> := map t | t in teams :: map[];
    for i := 0 to |records|
      invariant AllAttributed(teams, records[..i])
      invariant IsOriginTally(teams, records[..i], tally)
      invariant forall t | t in teams :: SumValues(tally[t]) == ShotsFor(records[..i], t)
    {
      var rec := records[i];
      assert records[..i + 1] == records[..i] + [rec];
      if rec.team.None? || rec.team.value !in teams {
        assert rec in records;
        return None;
      }
      TallyStep(teams, records[..i], tally, rec);
      var t := rec.team.value;
      var counts := tally[t];
      tally := tally[t := counts[rec.origin := if rec.origin in counts then counts[rec.origin] + 1 else 1]];
    }
    assert records[..|records|] == records;
    return Some(tally);
  }
}
