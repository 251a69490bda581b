/**
 * The team-logo selector: the search-and-league filter over all teams, and
 * the dialog state that choosing a team resets.
 */
module TeamLogoSelector {
  import opened Wrappers
  import opened JsText
  import opened Seqs

  /** A team of the (external) team list; only these three fields are read. */
  datatype Team = Team(id: string, name: string, league: string)

  /** The league value that disables league filtering. */
  const AllLeagues := "All"

  /** The name contains the query, letter case ignored; the empty query matches every team. */
  predicate MatchesSearch(team: Team, query: string): (b: bool)
    ensures b <==> exists i :: OccursAt(Lower(team.name), Lower(query), i)
    ensures query == "" ==> b
  {
    var hay, needle := Lower(team.name), Lower(query);
    assert forall i :: OccursAt(Lower(team.name), Lower(query), i) <==> OccursAt(hay, needle, i);
    Includes(hay, needle)
  }

  /** "All" matches every team; any other league only the teams of that league. */
  predicate MatchesLeague(team: Team, league: string): (b: bool)
    ensures league == AllLeagues ==> b
    ensures league != AllLeagues ==> (b <==> team.league == league)
  {
    league == AllLeagues || team.league == league
  }

  /** `filteredTeams`: the teams whose lower-cased name contains the lower-cased query and
      whose league is the selected one (any league for "All"), in their original order. */
  function FilteredTeams(teams: seq<Team>, query: string, league: string): (r: seq<Team>)
    ensures forall t :: t in r <==> t in teams && MatchesSearch(t, query) && MatchesLeague(t, league)
    ensures IsSubsequence(r, teams)
  {
    Filter(teams, t => MatchesSearch(t, query) && MatchesLeague(t, league))
  }

  /** With the initial query and league nothing is filtered out. */
  lemma InitialFilterKeepsAll(teams: seq<Team>)
    ensures FilteredTeams(teams, "", AllLeagues) == teams
  {
    forall t | t in teams ensures MatchesSearch(t, "") && MatchesLeague(t, AllLeagues) {
      IncludesEmpty(Lower(t.name));
    }
    FilterAll(teams, t => MatchesSearch(t, "") && MatchesLeague(t, AllLeagues));
  }

  /** Two queries that differ only in letter case select the same teams. */
  lemma QueryCaseIrrelevant(teams: seq<Team>, q1: string, q2: string, league: string)
    requires Lower(q1) == Lower(q2)
    ensures FilteredTeams(teams, q1, league) == FilteredTeams(teams, q2, league)
  {
    FilterCongruent(teams, t => MatchesSearch(t, q1) && MatchesLeague(t, league),
                           t => MatchesSearch(t, q2) && MatchesLeague(t, league));
  }

  class TeamPicker {
    const allTeams: seq<Team>
    var isOpen: bool
    var searchQuery: string
    var selectedLeague: string

    function Filtered(): seq<Team>
      reads this
    {
      FilteredTeams(allTeams, searchQuery, selectedLeague)
    }

    constructor (allTeams: seq<Team>)
      ensures this.allTeams == allTeams
      ensures !isOpen && searchQuery == "" && selectedLeague == AllLeagues
      ensures Filtered() == allTeams
    {
      this.allTeams := allTeams;
      isOpen, searchQuery, selectedLeague := false, "", AllLeagues;
      InitialFilterKeepsAll(allTeams);
    }

    /** `handleSelectTeam`: reports the team, closes the dialog and resets the search. */
    method SelectTeam(team: Team) returns (reported: Option<Team>)
      modifies this
      ensures reported == Some(team)
      ensures !isOpen && searchQuery == "" && selectedLeague == AllLeagues
      ensures Filtered() == allTeams
    {
      reported := Some(team);
      isOpen := false;
      searchQuery := "";
      selectedLeague := AllLeagues;
      InitialFilterKeepsAll(allTeams);
    }

    /** `handleClearSelection`: reports that no team is chosen and changes nothing here. */
    method ClearSelection() returns (reported: Option<Team>)
      ensures reported == None
    {
      reported := None;
    }

    method SetOpen(open: bool)
      modifies this`isOpen
      ensures isOpen == open
    {
      isOpen := open;
    }

    method SetSearchQuery(query: string)
      modifies this`searchQuery
      ensures searchQuery == query
    {
      searchQuery := query;
    }

    method SetLeague(league: string)
      modifies this`selectedLeague
      ensures selectedLeague == league
    {
      selectedLeague := league;
    }
  }
}
