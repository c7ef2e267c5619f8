/** The team filter page: the chosen filter label picks a backend endpoint,
    and the loosely typed answer is turned into the three row lists the page
    shows (`stats`, `defensiveStats`, `generalData`). */
module TeamFilter {

  import opened Wrappers
  import opened JsValues
  import opened Strings

  /** The four backend calls the page can make. */
  datatype Endpoint = TeamVictories | TeamStats | DefensiveStats | TeamGames

  /** The `switch (selectedFilter)`: each recognised label selects one
      endpoint; any other label (the `default` branch) selects none. */
  function EndpointFor(filter: string): (e: Option<Endpoint>)
    ensures e == Some(TeamVictories) <==> filter == "Vitórias"
    ensures e == Some(TeamStats) <==> filter == "Estatísticas Gerais"
    ensures e == Some(DefensiveStats) <==> filter == "Estatísticas Ofensivas"
    ensures e == Some(TeamGames) <==> filter == "Jogos"
  {
    if filter == "Vitórias" then Some(TeamVictories)
    else if filter == "Estatísticas Gerais" then Some(TeamStats)
    else if filter == "Estatísticas Ofensivas" then Some(DefensiveStats)
    else if filter == "Jogos" then Some(TeamGames)
    else None
  }

  /** The values of the filter drop-down, the empty placeholder first. */
  const FilterOptions: seq<string> :=
    ["", "Vitórias", "Estatísticas Gerais", "Estatísticas Defensivas", "Jogos"]

  /** The drop-down offers "Estatísticas Defensivas", which the `switch`
      does not recognise, and does not offer "Estatísticas Ofensivas", the
      only label that reaches the defensive-statistics endpoint: no option
      of the page ever calls that endpoint. */
  lemma DefensiveEndpointUnreachable()
    ensures EndpointFor("Estatísticas Defensivas") == None
    ensures forall i :: 0 <= i < |FilterOptions| ==> EndpointFor(FilterOptions[i]) != Some(DefensiveStats)
  {
  }

  // ---------------------------------------------------------------------
  // Row builders

  /** `text` is `key` with every underscore turned into a space. */
  predicate SpacedLabel(text: string, key: string) {
    |text| == |key| && forall j :: 0 <= j < |key| ==> text[j] == (if key[j] == '_' then ' ' else key[j])
  }

  /** `{ Estatística: key.replace(/_/g, " "), Valor: value }`: the label is
      the key with its underscores spaced out, and the value is unchanged. */
  function StatRow(m: Member): (row: Json)
    ensures row.Obj? && |row.members| == 2
    ensures row.members[0].key == "Estatística" && row.members[0].value.Str?
    ensures SpacedLabel(row.members[0].value.s, m.key) && '_' !in row.members[0].value.s
    ensures row.members[1] == Member("Valor", m.value)
  {
    Obj([Member("Estatística", Str(ReplaceAll(m.key, '_', ' '))), Member("Valor", m.value)])
  }

  /** `Object.entries(v).map(...)`: one row per entry, in entry order. */
  function StatRows(v: Json): (rows: seq<Json>)
    ensures |rows| == |Entries(v)|
    ensures forall i :: 0 <= i < |rows| ==> rows[i] == StatRow(Entries(v)[i])
  {
    var es := Entries(v);
    seq(|es|, i requires 0 <= i < |es| => StatRow(es[i]))
  }

  /** One row of the games table: date, opponent, result and score copied
      from the game, and the venue read as a home game only when
      `home_or_away === "home"`. */
  function GameRow(game: Json): (row: Json)
    ensures row.Obj? && |row.members| == 5
    ensures row.members[0] == Member("Data", Prop(game, "date"))
    ensures row.members[1] == Member("Adversário", Prop(game, "opponent"))
    ensures row.members[2] == Member("Resultado", Prop(game, "result"))
    ensures row.members[3].key == "Local"
    ensures row.members[3].value == Str("Casa") <==> Prop(game, "home_or_away") == Str("home")
    ensures row.members[3].value == Str("Fora") <==> Prop(game, "home_or_away") != Str("home")
    ensures row.members[4] == Member("Placar", Prop(game, "score"))
  {
    assert "Casa"[0] != "Fora"[0];
    var home := Prop(game, "home_or_away") == Str("home");
    var venue := if home then "Casa" else "Fora";
    Obj([
      Member("Data", Prop(game, "date")),
      Member("Adversário", Prop(game, "opponent")),
      Member("Resultado", Prop(game, "result")),
      Member("Local", Str(venue)),
      Member("Placar", Prop(game, "score"))
    ])
  }

  /** `games_data.map(game => ...)`: `None` when some element is null or
      undefined, since reading its fields throws; otherwise one row per game
      in game order. */
  function GameRows(games: seq<Json>): (rows: Option<seq<Json>>)
    ensures rows.Some? <==> forall i :: 0 <= i < |games| ==> !Nullish(games[i])
    ensures rows.Some? ==> |rows.value| == |games|
    ensures rows.Some? ==> forall i :: 0 <= i < |games| ==> rows.value[i] == GameRow(games[i])
  {
    if games == [] then Some([])
    else if Nullish(games[0]) then None
    else
      match GameRows(games[1..])
      case None => None
      case Some(rest) => Some([GameRow(games[0])] + rest)
  }

  // ---------------------------------------------------------------------
  // Response extraction

  /** The page's `data`: the two statistics tables as row lists, and the
      general table, which is a list of rows unless the response itself was
      not a plain object. */
  datatype TeamData = TeamData(stats: seq<Json>, defensiveStats: seq<Json>, generalData: Json)

  const EmptyData := TeamData([], [], Arr([]))

  /** The rows of `team_stats_data`, if truthy. */
  function StatsPart(response: Json): seq<Json> {
    var tsd := Prop(response, "team_stats_data");
    if Truthy(tsd) then StatRows(tsd) else []
  }

  /** `defensive_stats_data` wins over `team_stats_data_div`. */
  function DefensivePart(response: Json): seq<Json> {
    var div := Prop(response, "team_stats_data_div");
    var def := Prop(response, "defensive_stats_data");
    if Truthy(def) then StatRows(def) else if Truthy(div) then StatRows(div) else []
  }

  /** Mapping `games_data` throws on a null or undefined game. */
  predicate GamesThrow(response: Json) {
    var games := Prop(response, "games_data");
    games.Arr? && GameRows(games.items).None?
  }

  /** A `victories_data` array wins over the rows of `games_data`. */
  function GeneralPart(response: Json): seq<Json>
    requires !GamesThrow(response)
  {
    var games := Prop(response, "games_data");
    var victories := Prop(response, "victories_data");
    if victories.Arr? then victories.items
    else if games.Arr? then GameRows(games.items).value
    else []
  }

  /** What the extraction makes of a response, stated by precedence rather
      than by successive overwrites (see the three parts above); an object
      that yields no row at all is shown as the single row `[response]`.
      `None`: the extraction threw. */
  function ExtractSpec(response: Json): (r: Option<TeamData>)
    ensures r.None? <==> response.Obj? && GamesThrow(response)
  {
    if !response.Obj? then Some(TeamData([], [], response))
    else if GamesThrow(response) then None
    else
      var stats, defensive, general := StatsPart(response), DefensivePart(response), GeneralPart(response);
      if |general| == 0 && |stats| == 0 && |defensive| == 0 then Some(TeamData([], [], Arr([response])))
      else Some(TeamData(stats, defensive, Arr(general)))
  }

  /** The body of `fetchData` after the call: `extractedData` starts empty
      and each `if` that applies overwrites a field, later ones clobbering
      earlier ones. `None` when mapping `games_data` threw. */
  method ExtractData(response: Json) returns (d: Option<TeamData>)
    ensures d == ExtractSpec(response)
  {
    var stats: seq<Json> := [];
    var defensiveStats: seq<Json> := [];
    var generalData: seq<Json> := [];
    if response.Obj? {
      var tsd := Prop(response, "team_stats_data");
      if Truthy(tsd) {
        stats := StatRows(tsd);
      }
      var div := Prop(response, "team_stats_data_div");
      if Truthy(div) {
        defensiveStats := StatRows(div);
      }
      var def := Prop(response, "defensive_stats_data");
      if Truthy(def) {
        defensiveStats := StatRows(def);
      }
      var games := Prop(response, "games_data");
      if games.Arr? {
        var rows := GameRows(games.items);
        if rows.None? {
          return None;
        }
        generalData := rows.value;
      }
      var victories := Prop(response, "victories_data");
      if victories.Arr? {
        generalData := victories.items;
      }
      assert !GamesThrow(response);
      assert stats == StatsPart(response);
      assert defensiveStats == DefensivePart(response);
      assert generalData == GeneralPart(response);
      if |generalData| == 0 && |stats| == 0 && |defensiveStats| == 0 {
        generalData := [response];
      }
      d := Some(TeamData(stats, defensiveStats, Arr(generalData)));
    } else {
      d := Some(TeamData([], [], response));
    }
  }

  /** A falsy, array or other non-object response becomes `generalData`
      unchanged, with both statistics lists empty. */
  lemma NonObjectPassesThrough(response: Json)
    requires !response.Obj?
    ensures ExtractSpec(response) == Some(TeamData([], [], response))
  {
  }

  /** When both are present, `defensive_stats_data` decides `defensiveStats`. */
  lemma DefensiveOverridesDiv(response: Json)
    requires response.Obj? && Truthy(Prop(response, "defensive_stats_data"))
    requires ExtractSpec(response).Some?
    ensures ExtractSpec(response).value.defensiveStats == StatRows(Prop(response, "defensive_stats_data"))
  {
  }

  /** A non-empty `victories_data` array is the general table, whatever
      `games_data` holds (as long as mapping it did not throw). */
  lemma VictoriesOverrideGames(response: Json)
    requires response.Obj? && Prop(response, "victories_data").Arr?
    requires Prop(response, "victories_data").items != []
    requires ExtractSpec(response).Some?
    ensures ExtractSpec(response).value.generalData == Prop(response, "victories_data")
  {
  }

  /** An object response that yields no row in any of the three lists is
      shown as the one-row general table `[response]`. */
  lemma EmptyObjectFallsBack(response: Json)
    requires response.Obj?
    requires !Truthy(Prop(response, "team_stats_data")) && !Truthy(Prop(response, "team_stats_data_div"))
    requires !Truthy(Prop(response, "defensive_stats_data"))
    requires !Prop(response, "games_data").Arr? && !Prop(response, "victories_data").Arr?
    ensures ExtractSpec(response) == Some(TeamData([], [], Arr([response])))
  {
  }

  /** A null or undefined game in `games_data` makes the extraction throw,
      even when `victories_data` would have replaced the game rows. */
  lemma NullGameThrows(response: Json, i: nat)
    requires response.Obj? && Prop(response, "games_data").Arr?
    requires i < |Prop(response, "games_data").items| && Nullish(Prop(response, "games_data").items[i])
    ensures ExtractSpec(response) == None
  {
  }

  /** An object response that does not throw always leaves at least one of
      the three lists non-empty: when nothing else is found, the response
      itself becomes the one general row. */
  lemma ObjectResponseShowsSomething(response: Json)
    requires response.Obj? && ExtractSpec(response).Some?
    ensures var d := ExtractSpec(response).value;
      d.generalData.Arr? && (d.stats != [] || d.defensiveStats != [] || d.generalData.items != [])
  {
  }

  // ---------------------------------------------------------------------
  // Page state

  /** One backend call: the endpoint, the selected team and the season. */
  datatype Request = Request(endpoint: Endpoint, team: string, season: string)

  /** The state of the team filter page that the handlers change. */
  class TeamFilterPage {
    var selectedTeam: string
    var selectedFilter: string
    var data: TeamData
    const season: string

    constructor ()
      ensures selectedTeam == "" && selectedFilter == "" && data == EmptyData
      ensures season == "2023-24"
    {
      selectedTeam := "";
      selectedFilter := "";
      data := EmptyData;
      season := "2023-24";
    }

    /** The team drop-down's `onChange`: a new team clears the filter and all
        three lists. */
    method SelectTeam(team: string)
      modifies this
      ensures selectedTeam == team && selectedFilter == "" && data == EmptyData
    {
      selectedTeam := team;
      selectedFilter := "";
      data := EmptyData;
    }

    /** The filter drop-down's `onChange`. */
    method SelectFilter(filter: string)
      modifies this
      ensures selectedFilter == filter
      ensures selectedTeam == old(selectedTeam) && data == old(data)
    {
      selectedFilter := filter;
    }

    /** `fetchData`: `backend` answers each request as the API wrapper
        would (its own error fallback included). Without a team or a filter,
        or with a label the `switch` does not recognise, nothing is fetched
        and `data` stays; otherwise `data` becomes the extraction of the
        answer, unless the extraction threw. */
    method FetchData(backend: Request -> Json)
      modifies this
      ensures selectedTeam == old(selectedTeam) && selectedFilter == old(selectedFilter)
      ensures selectedTeam == "" || selectedFilter == "" ==> data == old(data)
      ensures EndpointFor(selectedFilter).None? ==> data == old(data)
      ensures selectedTeam != "" && EndpointFor(selectedFilter).Some? ==>
        var answer := ExtractSpec(backend(Request(EndpointFor(selectedFilter).value, selectedTeam, season)));
        data == (if answer.Some? then answer.value else old(data))
    {
      if selectedTeam == "" || selectedFilter == "" {
        return;
      }
      var endpoint := EndpointFor(selectedFilter);
      if endpoint.None? {
        return;
      }
      var response := backend(Request(endpoint.value, selectedTeam, season));
      var extracted := ExtractData(response);
      if extracted.Some? {
        data := extracted.value;
      }
    }
  }
}
