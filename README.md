# NBA statistics front end: page logic in Dafny

This project models the logic of three pages of the NBA statistics front end.
The rendering and the network are left out.

- **Player dashboard** (`nba-frontend/src/pages/DashboardPlayer.jsx`).
  - `calculateStats` summarises one metric (points, rebounds or assists) of a player's games.
  - The summary holds the mean, the median, the mode and its frequency, the minimum and the maximum, the two quartiles and the 1.5×IQR outliers.
  - The summary feeds the mean/median/mode bar charts and the box plot.
- **Team filter** (`nba-frontend/src/pages/Teamfilter.jsx`).
  - The chosen filter label selects one of four backend calls.
  - The loosely typed answer becomes three row lists: `stats`, `defensiveStats` and `generalData`.
  - Choosing a new team clears the filter and the lists.
- **Player games view** (`src/pages/Player.jsx`).
  - The games table and the five-row statistics table.
  - The opponent filter, which sets `filteredGames` and `generalStats` from the backend's reply.
  - The choice between filtered games and all games.

Modules:

- `Wrappers`: `Option`.
- `JsValues`: a JSON value plus `undefined`, with the JavaScript operations the pages use.
  - Truthiness, `??`, property access and `?.`.
  - `Object.entries`.
- `Strings`: the two `replace` forms and `toUpperCase` on one character.
- `Sorting`: the ascending sort. It is specified by its result, and the result is proved unique.
- `DashboardPlayer`, `TeamFilter` and `PlayerPage`: one module per page.

Page state that handlers update in place is modelled as a class with `modifies` clauses:

- `TeamFilter.TeamFilterPage`.
- `PlayerPage.PlayerGamesView`.

The frequency table of `calculateStats` is filled by a loop. The successive overwrites of `fetchData`'s extraction are kept as written. Both are methods proved against specification functions.

Where this model and a plain reading of the page disagree, the model follows the code:

- **The mode tie-break.** The fold `moda[a] > moda[b] ? a : b` keeps the later key when two counts are equal. `Object.keys` lists integer keys in ascending order. So among values tied for the highest count, the *largest* is reported (`ModeTieBreakExample`).
- **Outliers of `[1, 2, 2, 3, 100]`.** The quartiles are `values[1] = 2` and `values[3] = 3`, so the fences are 0.5 and 4.5. Only 100 is an outlier: 1 lies inside the lower fence (`OutliersExample`).
- **The defensive-statistics label.** The team filter's drop-down offers "Estatísticas Defensivas", but the `switch` only recognises "Estatísticas Ofensivas" for the defensive-statistics call. No option of the page reaches that endpoint (`DefensiveEndpointUnreachable`).

## Model

| member | source | states |
|---|---|---|
| JsValues.OrElse | src/pages/Player.jsx:101-107 | `x ?? d` is `x` unless `x` is null or undefined, in which case it is `d` |
| JsValues.Truthy | nba-frontend/src/pages/Teamfilter.jsx:63-79 | a truthy value is never null or undefined, so a property read it guards cannot throw; every array and object, even an empty one, is truthy |
| JsValues.Prop | nba-frontend/src/pages/Teamfilter.jsx:66-99 | reading a key of a non-object gives undefined; of an object, the value of the member with that key |
| JsValues.LookupFirst | nba-frontend/src/pages/Teamfilter.jsx:66-99 | the value read is the one under the first member with the key |
| JsValues.OptProp | src/pages/Player.jsx:115-121 | `x?.key` is undefined for a null or undefined `x`, and the property read otherwise |
| JsValues.Entries | nba-frontend/src/pages/Teamfilter.jsx:67 | `Object.entries` lists an object's members in order; an array's items and a string's characters come under the keys "0", "1", … of their indices; other values have none |
| Strings.ReplaceAll | nba-frontend/src/pages/Teamfilter.jsx:68 | `replace(/_/g, " ")` keeps the length and turns every underscore into a space, leaving other characters |
| Strings.ReplaceFirst | src/pages/Player.jsx:114 | `replace("_", " ")` keeps the length and changes only the first underscore |
| Strings.ReplaceFirstAt | src/pages/Player.jsx:114 | when the first underscore is at `i`, the result is the string with a space spliced in at `i` |
| Strings.ReplaceFirstAbsent | src/pages/Player.jsx:114 | a string without an underscore is unchanged |
| Strings.Upper | src/pages/Player.jsx:114 | `toUpperCase` maps a lower-case ASCII letter to its capital and leaves every other character |
| Sorting.Insert | nba-frontend/src/pages/DashboardPlayer.jsx:41 | inserting into an ascending list keeps it ascending and adds exactly the one value |
| Sorting.SortAscending | nba-frontend/src/pages/DashboardPlayer.jsx:41 | `sort((a, b) => a - b)` yields an ascending permutation of the values |
| Sorting.SortedUnique | nba-frontend/src/pages/DashboardPlayer.jsx:41 | two ascending lists with the same values are equal, so the sorted list does not depend on the sort algorithm |
| Sorting.SortPermutationInvariant | nba-frontend/src/pages/DashboardPlayer.jsx:41 | reordering the games does not change the sorted values |
| Sorting.SumSortAscending | nba-frontend/src/pages/DashboardPlayer.jsx:42 | sorting does not change the total the `reduce` adds up |
| Sorting.Sum | nba-frontend/src/pages/DashboardPlayer.jsx:42 | the `reduce` total of counts is at least each of its values |
| Sorting.SumBounds | nba-frontend/src/pages/DashboardPlayer.jsx:42 | a sum of n values between lo and hi lies between n·lo and n·hi |
| DashboardPlayer.Project | nba-frontend/src/pages/DashboardPlayer.jsx:41 | `games.map(game => game[key])` has one value per game, in game order |
| DashboardPlayer.Median | nba-frontend/src/pages/DashboardPlayer.jsx:43 | on an ascending list the median lies between the two middle values, and is the middle value when the length is odd |
| DashboardPlayer.MedianSplitsHalves | nba-frontend/src/pages/DashboardPlayer.jsx:43 | the median of an ascending list is at or above its first half and at or below its second half |
| DashboardPlayer.FrequencyTable | nba-frontend/src/pages/DashboardPlayer.jsx:45-48 | the table has an entry exactly for each value that occurs |
| DashboardPlayer.FrequencyTableSnoc | nba-frontend/src/pages/DashboardPlayer.jsx:46 | counting one more value bumps its entry by one, starting from 0 |
| DashboardPlayer.Tally | nba-frontend/src/pages/DashboardPlayer.jsx:45-48 | the loop fills the table with each value's number of occurrences |
| DashboardPlayer.DistinctKeys | nba-frontend/src/pages/DashboardPlayer.jsx:49 | `Object.keys` of the table lists each occurring value once, in strictly ascending order |
| DashboardPlayer.PickMode | nba-frontend/src/pages/DashboardPlayer.jsx:49 | the fold returns its starting value or one of the keys it runs over |
| DashboardPlayer.PickModeIsBest | nba-frontend/src/pages/DashboardPlayer.jsx:49 | the fold returns a key at least as frequent as every key it passes; on a tie it returns the later, larger key |
| DashboardPlayer.Mode | nba-frontend/src/pages/DashboardPlayer.jsx:45-49 | `frequencia` is exactly the number of times `valor` occurs (`moda[modaValor]`, or 0 when it is missing); no values give `{ valor: 0, frequencia: 0 }` |
| DashboardPlayer.ModeIsLargestMostFrequent | nba-frontend/src/pages/DashboardPlayer.jsx:45-57 | for a non-empty list the mode occurs, its frequency is its count, no value occurs more often, and every value tied with it is not larger |
| DashboardPlayer.IsOutlier | nba-frontend/src/pages/DashboardPlayer.jsx:55 | the real-valued fence test agrees with its integer form: 2x < 2·q1 − 3·(q3 − q1) or 2x > 2·q3 + 3·(q3 − q1) |
| DashboardPlayer.Outliers | nba-frontend/src/pages/DashboardPlayer.jsx:55 | every value kept by the filter comes from the input and lies outside a fence; an ascending input gives ascending outliers |

| DashboardPlayer.OutliersCount | nba-frontend/src/pages/DashboardPlayer.jsx:55 | the filter keeps each value outside the fences as often as it occurs, and nothing else |
| DashboardPlayer.OutlierOutsideQuartiles | nba-frontend/src/pages/DashboardPlayer.jsx:55 | with q1 ≤ q3, an outlier lies below q1 or above q3 |
| DashboardPlayer.QuartileIndices | nba-frontend/src/pages/DashboardPlayer.jsx:51-52 | `floor(n·0.25)` and `floor(n·0.75)` are valid indices for n ≥ 1, in the lower and the upper half |
| DashboardPlayer.Summarize | nba-frontend/src/pages/DashboardPlayer.jsx:38-58 | no games give the all-zero summary, and only they give a mode frequency of 0 |
| DashboardPlayer.SummaryOfSorted | nba-frontend/src/pages/DashboardPlayer.jsx:41-57 | for an ascending non-empty list, min ≤ q1 ≤ q3 ≤ max |
| DashboardPlayer.CalculateStats | nba-frontend/src/pages/DashboardPlayer.jsx:38-58 | with no games it returns the all-zero summary; otherwise the summary of the projected values, with the table filled by the loop |
| DashboardPlayer.SummaryPermutationInvariant | nba-frontend/src/pages/DashboardPlayer.jsx:41-57 | the summary depends only on how often each value occurs, not on the order of the games |
| DashboardPlayer.SummaryMean | nba-frontend/src/pages/DashboardPlayer.jsx:42 | `media` is the sum of the input divided by its length |
| DashboardPlayer.SummaryMedian | nba-frontend/src/pages/DashboardPlayer.jsx:43 | `mediana` splits the sorted input in halves |
| DashboardPlayer.SummaryMode | nba-frontend/src/pages/DashboardPlayer.jsx:45-57 | `moda.valor` occurs in the input, `moda.frequencia` is its count, no value is more frequent, and ties go to the largest value |
| DashboardPlayer.SummaryFiveNumbers | nba-frontend/src/pages/DashboardPlayer.jsx:51-54 | min ≤ q1 ≤ median ≤ q3 ≤ max; all four are input values; min and max bound every input value |
| DashboardPlayer.SummaryInOrder | nba-frontend/src/pages/DashboardPlayer.jsx:51-54 | min ≤ q1 ≤ median ≤ q3 ≤ max |
| DashboardPlayer.SummaryFromInput | nba-frontend/src/pages/DashboardPlayer.jsx:51-54 | min, max, q1 and q3 are values of the input |
| DashboardPlayer.SummaryExtremes | nba-frontend/src/pages/DashboardPlayer.jsx:53-54 | every input value lies between min and max |
| DashboardPlayer.SummaryOutliers | nba-frontend/src/pages/DashboardPlayer.jsx:55 | `outliers` holds exactly the input values outside the fences, with their multiplicities, in ascending order, none of them between q1 and q3 |
| DashboardPlayer.ModeTieBreakExample | nba-frontend/src/pages/DashboardPlayer.jsx:49 | for the values 1, 1, 2, 2 in any order the mode is 2 with frequency 2 |
| DashboardPlayer.OutliersExample | nba-frontend/src/pages/DashboardPlayer.jsx:51-55 | for `[1, 2, 2, 3, 100]` the only outlier is 100 |
| DashboardPlayer.ChartData | nba-frontend/src/pages/DashboardPlayer.jsx:64-68 | three bars, "Média", "Mediana" and "Moda" in that order, carrying `media`, `mediana` and `moda.valor` |
| DashboardPlayer.ChartBarsWithinRange | nba-frontend/src/pages/DashboardPlayer.jsx:64-68 | for a non-empty input each of the three bars lies between the minimum and the maximum |
| DashboardPlayer.MeanWithinRange | nba-frontend/src/pages/DashboardPlayer.jsx:42 | the mean lies between the minimum and the maximum |
| DashboardPlayer.MedianWithinRange | nba-frontend/src/pages/DashboardPlayer.jsx:43 | the median lies between the minimum and the maximum |
| DashboardPlayer.ModeWithinRange | nba-frontend/src/pages/DashboardPlayer.jsx:49 | the mode lies between the minimum and the maximum |
| DashboardPlayer.MetricBox | nba-frontend/src/pages/DashboardPlayer.jsx:71-79 | the box of a metric is `min`, `q1`, `mediana` as `median`, `q3`, `max` and `outliers` of that metric's summary; with games it is in drawing order and its outliers ascend; without games it is flat at 0 |
| DashboardPlayer.BoxPlotData | nba-frontend/src/pages/DashboardPlayer.jsx:70-98 | three boxes: "Pontos" from the points summary, "Rebotes" from the rebounds summary, "Assistências" from the assists summary |
| DashboardPlayer.BoxPlotDrawn | nba-frontend/src/pages/DashboardPlayer.jsx:70-98 | each of the three boxes carries its label and is drawable: ordered with ascending outliers when there are games, flat at 0 otherwise |
| TeamFilter.EndpointFor | nba-frontend/src/pages/Teamfilter.jsx:46-61 | each of the four recognised labels, and only that label, selects its endpoint; any other label selects none |
| TeamFilter.DefensiveEndpointUnreachable | nba-frontend/src/pages/Teamfilter.jsx:46-61 | no option of the filter drop-down (lines 134-140) selects the defensive-statistics endpoint |
| TeamFilter.StatRow | nba-frontend/src/pages/Teamfilter.jsx:67-70 | a two-column row: the key with every underscore spaced out, and the value unchanged |
| TeamFilter.StatRows | nba-frontend/src/pages/Teamfilter.jsx:66-85 | one statistics row per entry of the value, in entry order |
| TeamFilter.GameRow | nba-frontend/src/pages/Teamfilter.jsx:88-94 | date, opponent, result and score copied; "Casa" exactly when `home_or_away === "home"`, else "Fora" |
| TeamFilter.GameRows | nba-frontend/src/pages/Teamfilter.jsx:87-95 | mapping throws exactly when some game is null or undefined; otherwise one row per game, in order |
| TeamFilter.ExtractSpec | nba-frontend/src/pages/Teamfilter.jsx:63-106 | the extraction throws exactly when the response is an object whose `games_data` array holds a null or undefined game |
| TeamFilter.ExtractData | nba-frontend/src/pages/Teamfilter.jsx:63-106 | the successive overwrites produce the precedence-style result: defensive over division statistics, victories over game rows, `[response]` when nothing else |
| TeamFilter.NonObjectPassesThrough | nba-frontend/src/pages/Teamfilter.jsx:104-106 | a non-object response becomes `generalData` unchanged, with both statistics lists empty |
| TeamFilter.DefensiveOverridesDiv | nba-frontend/src/pages/Teamfilter.jsx:72-85 | a truthy `defensive_stats_data` decides `defensiveStats` |
| TeamFilter.VictoriesOverrideGames | nba-frontend/src/pages/Teamfilter.jsx:87-99 | a non-empty `victories_data` array is the general table, whatever `games_data` holds |
| TeamFilter.EmptyObjectFallsBack | nba-frontend/src/pages/Teamfilter.jsx:101-103 | an object with no usable field is shown as the one-row table `[response]` |
| TeamFilter.NullGameThrows | nba-frontend/src/pages/Teamfilter.jsx:87-95 | a null or undefined game makes the extraction throw, even when `victories_data` would replace the rows |
| TeamFilter.ObjectResponseShowsSomething | nba-frontend/src/pages/Teamfilter.jsx:101-103 | an object response never leaves all three lists empty |
| TeamFilter.TeamFilterPage.constructor | nba-frontend/src/pages/Teamfilter.jsx:10-23 | no team, no filter, empty lists, season "2023-24" |
| TeamFilter.TeamFilterPage.SelectTeam | nba-frontend/src/pages/Teamfilter.jsx:121-125 | a new team clears the filter and all three lists |
| TeamFilter.TeamFilterPage.SelectFilter | nba-frontend/src/pages/Teamfilter.jsx:134 | only the filter changes |
| TeamFilter.TeamFilterPage.FetchData | nba-frontend/src/pages/Teamfilter.jsx:42-109 | without a team, a filter or a recognised label nothing changes; otherwise `data` becomes the extraction of the backend's answer for that endpoint, unless the extraction throws |
| PlayerPage.GamesTableRow | src/pages/Player.jsx:99-108 | the formatted date, then the seven columns in order, each holding the game's field or "N/A" when it is null or undefined |
| PlayerPage.GamesTable | src/pages/Player.jsx:98-109 | throws exactly when some game is null or undefined; otherwise one row per game, in order |
| PlayerPage.StatLabel | src/pages/Player.jsx:114 | the label has the key's length |
| PlayerPage.StatLabelShape | src/pages/Player.jsx:114 | the label is the key with its first character upper-cased and only the first later underscore turned into a space |
| PlayerPage.StatLabelSplice | src/pages/Player.jsx:114 | for a key whose first later underscore is at `i`, the label is the capitalised key with a space at `i` |
| PlayerPage.StatLabelNoUnderscore | src/pages/Player.jsx:114 | a key without a later underscore is only capitalised |
| PlayerPage.PontosLabel | src/pages/Player.jsx:112-114 | "pontos" is labelled "Pontos" |
| PlayerPage.RebotesLabel | src/pages/Player.jsx:112-114 | "rebotes" is labelled "Rebotes" |
| PlayerPage.AssistenciasLabel | src/pages/Player.jsx:112-114 | "assistencias" is labelled "Assistencias" |
| PlayerPage.AproveitamentoLabel | src/pages/Player.jsx:112-114 | "aproveitamento_3pts" is labelled "Aproveitamento 3pts" |
| PlayerPage.TempoLabel | src/pages/Player.jsx:112-114 | "tempo_medio_jogado" is labelled "Tempo medio_jogado": the second underscore survives |
| PlayerPage.PercentCell | src/pages/Player.jsx:120-121 | `${x ?? 0}%`: the text of the value followed by "%", or the text of 0 with "%" when the value is null or undefined |
| PlayerPage.StatsTableRow | src/pages/Player.jsx:113-122 | the label, then the columns "Média" to "Desvio Padrão", each showing the entry's field or "N/A" when the entry or the field is null or undefined, then "Abaixo da Média" and "Abaixo da Mediana" showing the field with "%", or 0% |
| PlayerPage.StatFields | src/pages/Player.jsx:115-121 | the seven fields read with `?.`, in column order; all undefined when the entry is null or undefined |
| PlayerPage.StatsRow | src/pages/Player.jsx:113-122 | eight columns in the order of lines 113-121, five value columns with "N/A" for a missing field and two percentage columns ending in "%" |
| PlayerPage.ValueMember | src/pages/Player.jsx:115-119 | `[name]: f ?? "N/A"`: the field when it is neither null nor undefined, "N/A" otherwise |
| PlayerPage.PercentMember | src/pages/Player.jsx:120-121 | the column `name` holds `${f ?? 0}%`: the field's text with "%", or 0% |
| PlayerPage.StatsTable | src/pages/Player.jsx:111-123 | always five rows, one per fixed key, in the fixed order |
| PlayerPage.OpponentOutcome | src/pages/Player.jsx:81-95 | games are shown exactly when the answer is truthy and `jogos` is a non-empty array; then statistics are `estatisticas_gerais` or null; otherwise, and on an exception, no games and null |
| PlayerPage.PlayerGamesView.constructor | src/pages/Player.jsx:16-22 | empty game lists, no opponent, null statistics, season "2024-25" |
| PlayerPage.PlayerGamesView.GamesLoaded | src/pages/Player.jsx:44-45 | both game lists become the loaded games; nothing else changes |
| PlayerPage.PlayerGamesView.SelectOpponent | src/pages/Player.jsx:197 | only the selected opponent changes |
| PlayerPage.PlayerGamesView.DisplayedGames | src/pages/Player.jsx:211 | the filtered games when there are any, otherwise all of the player's games |
| PlayerPage.PlayerGamesView.DisplayedStatsTable | src/pages/Player.jsx:214-228 | the statistics table is shown exactly when `generalStats` is truthy, and is then `renderStatsTable(generalStats)`: five rows |
| PlayerPage.PlayerGamesView.FetchGamesByOpponent | src/pages/Player.jsx:74-96 | without an opponent the filtered games are reset to all games and the statistics to null, with no call; otherwise the reply decides both fields as `OpponentOutcome` states; either way empty filtered games mean null statistics |

## Left out

- The network, `useEffect` lifecycles and `async` interleaving are left out. Each backend call is a function parameter: `backend` in `FetchData` and `FetchGamesByOpponent`.
- The API wrappers' own fallbacks are not modelled separately. The wrappers return `null` or `[]` on failure, and `backend` may return those. The model does not check that the imported API functions exist: `nba-frontend/api.js` does not export `getTeamGames`.
- `getStandings` and the team lists built from it (Teamfilter.jsx:25-40, Player.jsx:53-72) are left out. They only fill drop-down options.
- Loading the player record and the lookup of `playerInfo["team_id"]` (Player.jsx:27-51) are left out. Only the state change after the games arrive is modelled (`GamesLoaded`).
- The JSX rendering is left out. This covers the choice of table at Teamfilter.jsx:145-176, the `Table` component, the charts' drawing, the view modes and the calculators.
- `new Date(d).toLocaleDateString("pt-BR")` is the parameter `formatDate`. Text conversion inside template strings is the parameter `toText`.
- DashboardPlayer.CalculateStats: metric values are natural numbers. Negative values, non-numeric or missing fields (which turn the JavaScript results into `NaN` or string concatenation) and object keys that are not integer strings are not modelled.
- DashboardPlayer.Summarize: the mean, the median and the fences are exact reals. IEEE-754 rounding is not modelled.
- Sorting.SortAscending: only the result of the runtime's `sort` is modelled, not its algorithm or its in-place update.
- JsValues.Prop: objects are assumed to have distinct keys. Inherited and built-in properties (`length` of arrays and strings, prototype members) are not modelled, because the pages never read them through these keys.
- JsValues.Json: three properties of JavaScript objects and strings are assumed, not enforced:
  - each object key occurs once, and the members are listed in the order the runtime enumerates them; no predicate states either;
  - `LookupFirst` reads the first member with a key, while `JSON.parse` keeps the last of duplicated keys;
  - `Entries` splits a string into Unicode scalar values, while JavaScript splits it into UTF-16 code units.
- Strings.Upper: only ASCII letters are upper-cased. Unicode case mapping is not modelled.
