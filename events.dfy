/**
 This module defines a row of the match event log, the four fixed tag sets
 that classify rows, and the opposite team of a two-team match.
 Times are whole seconds; the readable `H:MM:SS` form is not part of this model.
 */
module Events {
  import opened Wrappers

  type Team = string
  type Tag = string
  type Label = string

  /** One row of the event log: who, which event tag, an optional sub-event label, and when. */
  datatype Event = Event(team: Team, event: Tag, subevent: Option<Label>, time: nat)

  /** Tags after which the row's team holds the ball. */
  const PossessionGained: set<Tag> :=
    {"skott", "frislag", "närkamp", "inslag", "utkast", "avslag", "friläge", "boll", "brytning", "passning"}

  /** Tags after which the row's team has lost the ball to the other team. */
  const PossessionLost: set<Tag> := {"bolltapp", "rensning", "offside"}

  /** Tags after which nobody holds the ball until the next gain. */
  const AwaitNext: set<Tag> := {"timeout", "mål", "stop", "utvisning", "hörna", "straff", "skottyp"}

  /** Tags that restart play; they overlap the gained and await tags. */
  const StartOfPlay: set<Tag> := {"avslag", "frislag", "inslag", "utkast", "hörna", "straff"}

  /** The class of a tag for possession tracking; Unknown is a tag outside all three sets. */
  datatype TagClass = Gained | Lost | Await | Unknown

  /**
   The possession class of a tag. The three sets are pairwise disjoint, so the
   order in which the source tests them does not decide the class.
   */
  function Classify(tag: Tag): (c: TagClass)
    ensures c == Gained <==> tag in PossessionGained
    ensures c == Lost <==> tag in PossessionLost
    ensures c == Await <==> tag in AwaitNext
  {
    if tag in PossessionGained then Gained
    else if tag in PossessionLost then Lost
    else if tag in AwaitNext then Await
    else Unknown
  }

  /** A possession-lost row can only be handed over when its team is one of exactly two match teams. */
  predicate LostTeamKnown(teams: set<Team>, e: Event)
  {
    Classify(e.event) == Lost ==> |teams| == 2 && e.team in teams
  }

  /** Every possession-lost row of the log names one of the two match teams. */
  predicate LostTeamsKnown(teams: set<Team>, events: seq<Event>)
  {
    forall e | e in events :: LostTeamKnown(teams, e)
  }

  /** Row times never decrease along the log. */
  ghost predicate TimesSorted(events: seq<Event>)
  {
    forall i, j | 0 <= i < j < |events| :: events[i].time <= events[j].time
  }

  lemma OtherTeamUnique(teams: set<Team>, team: Team)
    requires |teams| == 2 && team in teams
    ensures forall a, b | a in teams && b in teams && a != team && b != team :: a == b
    ensures exists a :: a in teams && a != team
  {
    var rest := teams - {team};
    assert |rest| == 1;
    var a :| a in rest;
    assert rest == {a} by {
      assert |rest - {a}| == 0;
    }
    forall b | b in teams && b != team
      ensures b == a
    {
      assert b in rest;
    }
  }

  /**
   The other team of a two-team match: the intended meaning of the source's
   `opposite_team` (see DifferenceAsWritten for what it does as written).
   */
  function Opposite(teams: set<Team>, team: Team): (other: Team)
    requires |teams| == 2 && team in teams
    ensures other in teams && other != team
    ensures teams == {team, other}
  {
    OtherTeamUnique(teams, team);
    var other :| other in teams && other != team;
    other
  }

  /**
   `teams.difference(team)` as the source writes it: a string is iterated
   character by character, so the only names removed are one-character names
   that occur in `team`. The source then pops an arbitrary element of this set.
   */
  function DifferenceAsWritten(teams: set<Team>, team: Team): (rest: set<Team>)
    ensures rest <= teams
  {
    set t | t in teams && !(|t| == 1 && t[0] in team)
  }

  /**
   When no team name is a single character, the difference as written removes
   nothing, so the popped "opposite" team may be `team` itself.
   */
  lemma DifferenceAsWrittenKeepsTeam(teams: set<Team>, team: Team)
    requires team in teams
    requires forall t | t in teams :: |t| != 1
    ensures DifferenceAsWritten(teams, team) == teams
    ensures team in DifferenceAsWritten(teams, team)
  {
  }

  /** The match of the source's driver script: losing the ball as "iks" may hand it to "iks". */
  lemma DifferenceAsWrittenExample()
    ensures DifferenceAsWritten({"iks", "mot"}, "iks") == {"iks", "mot"}
    ensures Opposite({"iks", "mot"}, "iks") == "mot"
  {
    DifferenceAsWrittenKeepsTeam({"iks", "mot"}, "iks");
  }
}
