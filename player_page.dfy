/** The player page's games view: the two tables it renders and the state
    its opponent filter changes. */
module PlayerPage {

  import opened Wrappers
  import opened JsValues
  import opened Strings

  const NA := Str("N/A")

  // ---------------------------------------------------------------------
  // Games table

  /** The columns after "Data", each with the game field it shows. */
  const GameColumns: seq<(string, string)> := [
    ("Oponente", "opponent"),
    ("Pontos", "points"),
    ("Assistências", "assists"),
    ("Rebotes", "rebounds"),
    ("Jogo", "home_away"),
    ("Placar", "score"),
    ("Resultado", "result")
  ]

  /** One row of `renderGamesTable`; `formatDate` stands for
      `new Date(d).toLocaleDateString("pt-BR")`. Each column after "Data"
      holds the game's field, or "N/A" when that field is null or undefined
      (a 0 is kept). */
  function GamesTableRow(game: Json, formatDate: Json -> string): (row: Json)
    ensures row.Obj? && |row.members| == 1 + |GameColumns|
    ensures row.members[0] == Member("Data", Str(formatDate(Prop(game, "game_date"))))
    ensures forall c :: 0 <= c < |GameColumns| ==>
      row.members[c + 1].key == GameColumns[c].0 &&
      (Nullish(Prop(game, GameColumns[c].1)) ==> row.members[c + 1].value == NA) &&
      (!Nullish(Prop(game, GameColumns[c].1)) ==> row.members[c + 1].value == Prop(game, GameColumns[c].1))
  {
    Obj([Member("Data", Str(formatDate(Prop(game, "game_date"))))] +
        seq(|GameColumns|, c requires 0 <= c < |GameColumns| =>
          Member(GameColumns[c].0, OrElse(Prop(game, GameColumns[c].1), NA))))
  }

  /** `renderGamesTable(games)`: one row per game, in game order. `None`
      when some game is itself null or undefined, since reading its fields
      throws. */
  function GamesTable(games: seq<Json>, formatDate: Json -> string): (rows: Option<seq<Json>>)
    ensures rows.Some? <==> forall i :: 0 <= i < |games| ==> !Nullish(games[i])
    ensures rows.Some? ==> |rows.value| == |games|
    ensures rows.Some? ==> forall i :: 0 <= i < |games| ==> rows.value[i] == GamesTableRow(games[i], formatDate)
  {
    if games == [] then Some([])
    else if Nullish(games[0]) then None
    else
      match GamesTable(games[1..], formatDate)
      case None => None
      case Some(rest) => Some([GamesTableRow(games[0], formatDate)] + rest)
  }

  // ---------------------------------------------------------------------
  // Statistics table

  const StatKeys: seq<string> := ["pontos", "rebotes", "assistencias", "aproveitamento_3pts", "tempo_medio_jogado"]

  /** `key.charAt(0).toUpperCase() + key.slice(1).replace("_", " ")` */
  function StatLabel(key: string): (text: string)
    ensures |text| == |key|
  {
    if key == [] then [] else [Upper(key[0])] + ReplaceFirst(key[1..], '_', ' ')
  }

  /** The label is the key with its first character upper-cased and, after
      it, only the first underscore turned into a space. */
  lemma StatLabelShape(key: string)
    requires key != []
    ensures StatLabel(key)[0] == Upper(key[0])
    ensures forall j :: 1 <= j < |key| ==>
      StatLabel(key)[j] == (if j == 1 + FirstIndex(key[1..], '_') then ' ' else key[j])
  {
    var rest := ReplaceFirst(key[1..], '_', ' ');
    assert StatLabel(key) == [Upper(key[0])] + rest;
    forall j | 1 <= j < |key|
      ensures StatLabel(key)[j] == (if j == 1 + FirstIndex(key[1..], '_') then ' ' else key[j])
    {
      assert StatLabel(key)[j] == rest[j - 1];
    }
  }

  /** A key whose first underscore after the first character is at `i`
      gets a space there and keeps the rest. */
  lemma StatLabelSplice(key: string, i: nat)
    requires 1 <= i < |key| && key[i] == '_'
    requires forall k :: 1 <= k < i ==> key[k] != '_'
    ensures StatLabel(key) == [Upper(key[0])] + key[1..i] + " " + key[i + 1..]
  {
    ReplaceFirstAt(key[1..], '_', ' ', i - 1);
    assert key[1..][..i - 1] == key[1..i];
    assert key[1..][i..] == key[i + 1..];
  }

  /** A key without an underscore after its first character only has that
      character upper-cased. */
  lemma StatLabelNoUnderscore(key: string)
    requires key != [] && '_' !in key[1..]
    ensures StatLabel(key) == [Upper(key[0])] + key[1..]
  {
    ReplaceFirstAbsent(key[1..], '_', ' ');
  }

  // The labels of the five rows; in "Tempo medio_jogado" the second
  // underscore survives.

  lemma PontosLabel() ensures StatLabel(StatKeys[0]) == "Pontos" {
    PlainLabel(StatKeys[0], "Pontos");
  }

  lemma RebotesLabel() ensures StatLabel(StatKeys[1]) == "Rebotes" {
    PlainLabel(StatKeys[1], "Rebotes");
  }

  lemma AssistenciasLabel() ensures StatLabel(StatKeys[2]) == "Assistencias" {
    PlainLabel(StatKeys[2], "Assistencias");
  }

  lemma AproveitamentoLabel() ensures StatLabel(StatKeys[3]) == "Aproveitamento 3pts" {
    SplicedLabel(StatKeys[3], 14, "Aproveitamento 3pts");
  }

  lemma TempoLabel() ensures StatLabel(StatKeys[4]) == "Tempo medio_jogado" {
    SplicedLabel(StatKeys[4], 5, "Tempo medio_jogado");
  }

  /** `StatLabel` of a key without underscores, checked against a given text. */
  lemma PlainLabel(key: string, text: string)
    requires key != [] && '_' !in key[1..]
    requires |text| == |key| && text[0] == Upper(key[0]) && text[1..] == key[1..]
    ensures StatLabel(key) == text
  {
    StatLabelNoUnderscore(key);
    assert text == [text[0]] + text[1..];
  }

  /** `StatLabel` of a key whose first underscore is at `i`, checked against a
      given text. */
  lemma SplicedLabel(key: string, i: nat, text: string)
    requires 1 <= i < |key| && key[i] == '_'
    requires forall k :: 1 <= k < i ==> key[k] != '_'
    requires |text| == |key| && text[0] == Upper(key[0]) && text[i] == ' '
    requires text[1..i] == key[1..i] && text[i + 1..] == key[i + 1..]
    ensures StatLabel(key) == text
  {
    StatLabelSplice(key, i);
    var spliced := [Upper(key[0])] + key[1..i] + " " + key[i + 1..];
    forall k | 0 <= k < |text|
      ensures text[k] == spliced[k]
    {
      if 0 < k < i {
        assert text[k] == text[1..i][k - 1];
      } else if i < k {
        assert text[k] == text[i + 1..][k - i - 1];
      }
    }
  }

  /** A percentage cell: `${x ?? 0}%`, where `toText` is the runtime's
      conversion of a value to text. */
  function PercentCell(x: Json, toText: Json -> string): (cell: Json)
    ensures cell.Str? && |cell.s| > 0 && cell.s[|cell.s| - 1] == '%'
    ensures Nullish(x) ==> cell == Str(toText(Num(0.0)) + "%")
    ensures !Nullish(x) ==> cell == Str(toText(x) + "%")
  {
    Str(toText(OrElse(x, Num(0.0))) + "%")
  }

  /** A value column named `name` showing the field `f`, or "N/A" when `f`
      is null or undefined. */
  predicate ValueColumn(m: Member, name: string, f: Json) {
    m.key == name && (Nullish(f) ==> m.value == NA) && (!Nullish(f) ==> m.value == f)
  }

  /** A percentage column named `name` showing the field `f` followed by
      "%", or "0%" when `f` is null or undefined. */
  predicate PercentColumn(m: Member, name: string, f: Json, toText: Json -> string) {
    m.key == name &&
    (Nullish(f) ==> m.value == Str(toText(Num(0.0)) + "%")) &&
    (!Nullish(f) ==> m.value == Str(toText(f) + "%"))
  }

  /** `{ [name]: f ?? "N/A" }` */
  function ValueMember(name: string, f: Json): (m: Member)
    ensures ValueColumn(m, name, f)
  {
    Member(name, OrElse(f, NA))
  }

  /** `{ [name]: `${f ?? 0}%` }` */
  function PercentMember(name: string, f: Json, toText: Json -> string): (m: Member)
    ensures PercentColumn(m, name, f, toText)
    ensures m.value.Str? && |m.value.s| > 0 && m.value.s[|m.value.s| - 1] == '%'
  {
    Member(name, PercentCell(f, toText))
  }

  /** The seven fields `renderStatsTable` reads from one entry `s`, in
      column order; all of them are undefined when the entry is missing. */
  function StatFields(s: Json): (fields: seq<Json>)
    ensures |fields| == 7
    ensures fields[0] == OptProp(s, "media") && fields[1] == OptProp(s, "mediana")
    ensures fields[2] == OptProp(OptProp(s, "moda"), "valor") && fields[3] == OptProp(OptProp(s, "moda"), "frequencia")
    ensures fields[4] == OptProp(s, "desvio_padrao")
    ensures fields[5] == OptProp(s, "abaixo_media_percentual") && fields[6] == OptProp(s, "abaixo_mediana_percentual")
    ensures Nullish(s) ==> forall k :: 0 <= k < 7 ==> fields[k] == Undefined
  {
    var moda := OptProp(s, "moda");
    [OptProp(s, "media"), OptProp(s, "mediana"), OptProp(moda, "valor"), OptProp(moda, "frequencia"),
     OptProp(s, "desvio_padrao"), OptProp(s, "abaixo_media_percentual"), OptProp(s, "abaixo_mediana_percentual")]
  }

  /** The row laid out from a caption and the seven fields: five value
      columns and two percentage columns. */
  function StatsRow(caption: string, fields: seq<Json>, toText: Json -> string): (row: Json)
    requires |fields| == 7
    ensures row.Obj? && |row.members| == 8
    ensures row.members[0] == Member("Estatística", Str(caption))
    ensures ValueColumn(row.members[1], "Média", fields[0])
    ensures ValueColumn(row.members[2], "Mediana", fields[1])
    ensures ValueColumn(row.members[3], "Moda", fields[2])
    ensures ValueColumn(row.members[4], "Frequência da Moda", fields[3])
    ensures ValueColumn(row.members[5], "Desvio Padrão", fields[4])
    ensures PercentColumn(row.members[6], "Abaixo da Média", fields[5], toText)
    ensures PercentColumn(row.members[7], "Abaixo da Mediana", fields[6], toText)
    ensures row.members[6].value.Str? && |row.members[6].value.s| > 0
    ensures row.members[6].value.s[|row.members[6].value.s| - 1] == '%'
    ensures row.members[7].value.Str? && |row.members[7].value.s| > 0
    ensures row.members[7].value.s[|row.members[7].value.s| - 1] == '%'
  {
    Obj([
      Member("Estatística", Str(caption)),
      ValueMember("Média", fields[0]),
      ValueMember("Mediana", fields[1]),
      ValueMember("Moda", fields[2]),
      ValueMember("Frequência da Moda", fields[3]),
      ValueMember("Desvio Padrão", fields[4]),
      PercentMember("Abaixo da Média", fields[5], toText),
      PercentMember("Abaixo da Mediana", fields[6], toText)
    ])
  }

  /** One row of `renderStatsTable` for the entry `stats[key]`: the label,
      five value columns that show the entry's field, or "N/A" when the
      entry or the field is null or undefined, and two percentage columns
      that show the field with "%", or "0%". */
  function StatsTableRow(stats: Json, key: string, toText: Json -> string): (row: Json)
    requires !Nullish(stats)
    ensures row.Obj? && |row.members| == 8
    ensures row.members[0] == Member("Estatística", Str(StatLabel(key)))
    ensures row.members[6].value.Str? && |row.members[6].value.s| > 0
    ensures row.members[6].value.s[|row.members[6].value.s| - 1] == '%'
    ensures row.members[7].value.Str? && |row.members[7].value.s| > 0
    ensures row.members[7].value.s[|row.members[7].value.s| - 1] == '%'
    ensures Nullish(Prop(stats, key)) ==>
      row.members[1].value == NA && row.members[2].value == NA && row.members[3].value == NA &&
      row.members[4].value == NA && row.members[5].value == NA &&
      row.members[6].value == Str(toText(Num(0.0)) + "%") &&
      row.members[7].value == Str(toText(Num(0.0)) + "%")
    ensures var s := Prop(stats, key);
      ValueColumn(row.members[1], "Média", OptProp(s, "media")) &&
      ValueColumn(row.members[2], "Mediana", OptProp(s, "mediana")) &&
      ValueColumn(row.members[3], "Moda", OptProp(OptProp(s, "moda"), "valor")) &&
      ValueColumn(row.members[4], "Frequência da Moda", OptProp(OptProp(s, "moda"), "frequencia")) &&
      ValueColumn(row.members[5], "Desvio Padrão", OptProp(s, "desvio_padrao"))
    ensures var s := Prop(stats, key);
      PercentColumn(row.members[6], "Abaixo da Média", OptProp(s, "abaixo_media_percentual"), toText) &&
      PercentColumn(row.members[7], "Abaixo da Mediana", OptProp(s, "abaixo_mediana_percentual"), toText)
  {
    StatsRow(StatLabel(key), StatFields(Prop(stats, key)), toText)
  }

  /** `renderStatsTable(stats)`: always five rows, one per fixed key in the
      fixed order. */
  function StatsTable(stats: Json, toText: Json -> string): (rows: seq<Json>)
    requires !Nullish(stats)
    ensures |rows| == |StatKeys| == 5
    ensures forall i :: 0 <= i < 5 ==> rows[i] == StatsTableRow(stats, StatKeys[i], toText)
  {
    seq(5, i requires 0 <= i < 5 => StatsTableRow(stats, StatKeys[i], toText))
  }

  // ---------------------------------------------------------------------
  // Opponent filter

  /** The query `getPlayerGamesbyOpp(playerId, season, opponentId)`. */
  datatype OpponentQuery = OpponentQuery(playerId: string, season: string, opponentId: string)

  /** What the awaited call produced: an answer, or an exception. */
  datatype Reply = Answer(body: Json) | Thrown

  /** The two state fields an opponent reply sets. */
  datatype OpponentView = OpponentView(games: seq<Json>, stats: Json)

  /** The branches of `fetchGamesByOpponent` after the call: a truthy answer
      whose `jogos` is a non-empty array shows those games with
      `estatisticas_gerais || null`; any other answer, and an exception,
      show no games and no statistics. */
  function OpponentOutcome(reply: Reply): (v: OpponentView)
    ensures v.games != [] <==>
      reply.Answer? && Truthy(reply.body) && Prop(reply.body, "jogos").Arr? && Prop(reply.body, "jogos").items != []
    ensures v.games != [] ==> v.games == Prop(reply.body, "jogos").items
    ensures v.games != [] ==>
      v.stats == (if Truthy(Prop(reply.body, "estatisticas_gerais")) then Prop(reply.body, "estatisticas_gerais") else Null)
    ensures v.games == [] ==> v.stats == Null
    ensures v.stats == Null || Truthy(v.stats)
  {
    match reply
    case Thrown => OpponentView([], Null)
    case Answer(response) =>
      var jogos := Prop(response, "jogos");
      if Truthy(response) && jogos.Arr? && |jogos.items| > 0 then
        var stats := Prop(response, "estatisticas_gerais");
        OpponentView(jogos.items, if Truthy(stats) then stats else Null)
      else OpponentView([], Null)
  }

  /** The games view's state. */
  class PlayerGamesView {
    const playerId: string
    var season: string
    var playerGames: seq<Json>
    var filteredGames: seq<Json>
    var generalStats: Json
    var selectedOpponent: string

    constructor (playerId: string)
      ensures this.playerId == playerId && season == "2024-25"
      ensures playerGames == [] && filteredGames == [] && generalStats == Null && selectedOpponent == ""
    {
      this.playerId := playerId;
      season := "2024-25";
      playerGames := [];
      filteredGames := [];
      generalStats := Null;
      selectedOpponent := "";
    }

    /** The season's games arrived: both lists show them. */
    method GamesLoaded(games: seq<Json>)
      modifies this
      ensures playerGames == games && filteredGames == games
      ensures generalStats == old(generalStats) && selectedOpponent == old(selectedOpponent) && season == old(season)
    {
      playerGames := games;
      filteredGames := games;
    }

    /** The opponent drop-down's `onChange`. */
    method SelectOpponent(opponent: string)
      modifies this
      ensures selectedOpponent == opponent
      ensures playerGames == old(playerGames) && filteredGames == old(filteredGames)
      ensures generalStats == old(generalStats) && season == old(season)
    {
      selectedOpponent := opponent;
    }

    /** The games the table shows: the filtered games if there are any,
        otherwise all of the player's games. */
    function DisplayedGames(): (shown: seq<Json>)
      reads this
      ensures filteredGames != [] ==> shown == filteredGames
      ensures filteredGames == [] ==> shown == playerGames
    {
      if |filteredGames| > 0 then filteredGames else playerGames
    }

    /** The statistics table, rendered only when `generalStats` is truthy. */
    function DisplayedStatsTable(toText: Json -> string): (table: Option<seq<Json>>)
      reads this
      ensures table.Some? <==> Truthy(generalStats)
      ensures table.Some? ==> |table.value| == 5
      ensures table.Some? ==> table.value == StatsTable(generalStats, toText)
    {
      if Truthy(generalStats) then Some(StatsTable(generalStats, toText)) else None
    }

    /** `fetchGamesByOpponent`: with no opponent selected the filtered games
        are reset to all of the player's games without a call; otherwise the
        reply decides both fields. Either way, no filtered games means no
        statistics. */
    method FetchGamesByOpponent(backend: OpponentQuery -> Reply)
      modifies this
      ensures playerGames == old(playerGames) && selectedOpponent == old(selectedOpponent) && season == old(season)
      ensures selectedOpponent == "" ==> filteredGames == playerGames && generalStats == Null
      ensures selectedOpponent != "" ==>
        OpponentView(filteredGames, generalStats) == OpponentOutcome(backend(OpponentQuery(playerId, season, selectedOpponent)))
      ensures filteredGames == [] ==> generalStats == Null
    {
      if selectedOpponent == "" {
        filteredGames := playerGames;
        generalStats := Null;
        return;
      }
      var reply := backend(OpponentQuery(playerId, season, selectedOpponent));
      var outcome := OpponentOutcome(reply);
      filteredGames := outcome.games;
      generalStats := outcome.stats;
    }
  }
}
