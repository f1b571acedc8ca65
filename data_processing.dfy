/**
 * The row builders of `DataProcessor` (`process_lol_match_data`,
 * `process_dota_match_data`): each match of a decoded JSON list becomes one
 * flat row per team (LoL) or per player (Dota), every row a copy of the
 * match-level fields extended with that element's own fields.
 *
 * The two builders differ only in which fields they read, so both are one
 * schema-driven loop over a `Schema`. A `KeyError` anywhere in a match ends that
 * match (rows already appended for its earlier elements stay); a `TypeError`
 * is not caught and ends the whole call.
 */
module DataProcessing {
  import opened PyJson

  /** The columns the builders create; `ColumnName` gives each one's name in the frame. */
  datatype Column =
    | MatchId | GameDuration
    | GameVersion | QueueId | TeamId | Win | FirstBlood | FirstTower | TotalTowers | TotalDragons | TotalBarons
    | RadiantWin | LeagueId | SeriesId | RadiantScore | DireScore
    | PlayerSlot | HeroId | Kills | Deaths | Assists | GoldPerMin | XpPerMin

  function ColumnName(c: Column): string
  {
    match c
    case MatchId => "match_id"
    case GameDuration => "game_duration"
    case GameVersion => "game_version"
    case QueueId => "queue_id"
    case TeamId => "team_id"
    case Win => "win"
    case FirstBlood => "first_blood"
    case FirstTower => "first_tower"
    case TotalTowers => "total_towers"
    case TotalDragons => "total_dragons"
    case TotalBarons => "total_barons"
    case RadiantWin => "radiant_win"
    case LeagueId => "leagueid"
    case SeriesId => "series_id"
    case RadiantScore => "radiant_score"
    case DireScore => "dire_score"
    case PlayerSlot => "player_slot"
    case HeroId => "hero_id"
    case Kills => "kills"
    case Deaths => "deaths"
    case Assists => "assists"
    case GoldPerMin => "gold_per_min"
    case XpPerMin => "xp_per_min"
  }

  /** Distinct columns have distinct names, so a row keyed by `Column` describes the same frame as one keyed by name. */
  lemma ColumnNameInjective(c: Column, d: Column)
    requires ColumnName(c) == ColumnName(d)
    ensures c == d
  {
  }

  /** A flat row before `pd.DataFrame` sees it: column to value. */
  type Row = map<Column, Json>

  /** The error an expression that did not give a value raised, passed on unchanged. */
  function Raise<T, U>(r: PyResult<T>): (e: PyResult<U>)
    requires !r.Ok?
    ensures e.KeyError? <==> r.KeyError?
    ensures !e.Ok?
  {
    if r.KeyError? then KeyError else TypeError
  }

  /**
   * What a builder reads: the `match_info` dict of a match, where the list of
   * elements (teams, players) sits in a match, and the row of one element, built
   * from a copy of `match_info`.
   */
  datatype Schema = Schema(
    matchInfo: Json -> PyResult<Row>,
    elements: seq<string>,
    elementRow: (Row, Json) -> PyResult<Row>)

  /** The `match_info` dict literal of `process_lol_match_data`, entries read in order. */
  function LolMatchInfo(m: Json): (r: PyResult<Row>)
    ensures r.Ok? ==> r.value.Keys == {MatchId, GameDuration, GameVersion, QueueId}
  {
    var matchId := Path(m, ["metadata", "matchId"]);
    if !matchId.Ok? then Raise(matchId) else
    var duration := Path(m, ["info", "gameDuration"]);
    if !duration.Ok? then Raise(duration) else
    var version := Path(m, ["info", "gameVersion"]);
    if !version.Ok? then Raise(version) else
    var queue := Path(m, ["info", "queueId"]);
    if !queue.Ok? then Raise(queue) else
    Ok(map[MatchId := matchId.value, GameDuration := duration.value, GameVersion := version.value, QueueId := queue.value])
  }

  /** The team row of `process_lol_match_data`: a copy of `info`, then seven assignments in order. */
  function LolTeamRow(info: Row, team: Json): (r: PyResult<Row>)
    ensures r.Ok? ==> r.value.Keys == info.Keys + {TeamId, Win, FirstBlood, FirstTower, TotalTowers, TotalDragons, TotalBarons}
  {
    var teamId := Get(team, "teamId");
    if !teamId.Ok? then Raise(teamId) else
    var win := Get(team, "win");
    if !win.Ok? then Raise(win) else
    var firstBlood := Path(team, ["objectives", "champion", "first"]);
    if !firstBlood.Ok? then Raise(firstBlood) else
    var firstTower := Path(team, ["objectives", "tower", "first"]);
    if !firstTower.Ok? then Raise(firstTower) else
    var towers := Path(team, ["objectives", "tower", "kills"]);
    if !towers.Ok? then Raise(towers) else
    var dragons := Path(team, ["objectives", "dragon", "kills"]);
    if !dragons.Ok? then Raise(dragons) else
    var barons := Path(team, ["objectives", "baron", "kills"]);
    if !barons.Ok? then Raise(barons) else
    Ok(info[TeamId := teamId.value]
           [Win := JInt(if Truthy(win.value) then 1 else 0)]
           [FirstBlood := firstBlood.value]
           [FirstTower := firstTower.value]
           [TotalTowers := towers.value]
           [TotalDragons := dragons.value]
           [TotalBarons := barons.value])
  }

  /** The `match_info` dict literal of `process_dota_match_data`, entries read in order. */
  function DotaMatchInfo(m: Json): (r: PyResult<Row>)
    ensures r.Ok? ==> r.value.Keys == {MatchId, GameDuration, RadiantWin, LeagueId, SeriesId, RadiantScore, DireScore}
  {
    var matchId := Get(m, "match_id");
    if !matchId.Ok? then Raise(matchId) else
    var duration := Get(m, "duration");
    if !duration.Ok? then Raise(duration) else
    var radiantWin := Get(m, "radiant_win");
    if !radiantWin.Ok? then Raise(radiantWin) else
    var league := Get(m, "leagueid");
    if !league.Ok? then Raise(league) else
    var series := Get(m, "series_id");
    if !series.Ok? then Raise(series) else
    var radiantScore := Get(m, "radiant_score");
    if !radiantScore.Ok? then Raise(radiantScore) else
    var direScore := Get(m, "dire_score");
    if !direScore.Ok? then Raise(direScore) else
    Ok(map[MatchId := matchId.value, GameDuration := duration.value, RadiantWin := radiantWin.value,
           LeagueId := league.value, SeriesId := series.value, RadiantScore := radiantScore.value,
           DireScore := direScore.value])
  }

  /** The player row of `process_dota_match_data`: a copy of `info`, then seven assignments in order. */
  function DotaPlayerRow(info: Row, player: Json): (r: PyResult<Row>)
    ensures r.Ok? ==> r.value.Keys == info.Keys + {PlayerSlot, HeroId, Kills, Deaths, Assists, GoldPerMin, XpPerMin}
  {
    var slot := Get(player, "player_slot");
    if !slot.Ok? then Raise(slot) else
    var hero := Get(player, "hero_id");
    if !hero.Ok? then Raise(hero) else
    var kills := Get(player, "kills");
    if !kills.Ok? then Raise(kills) else
    var deaths := Get(player, "deaths");
    if !deaths.Ok? then Raise(deaths) else
    var assists := Get(player, "assists");
    if !assists.Ok? then Raise(assists) else
    var gpm := Get(player, "gold_per_min");
    if !gpm.Ok? then Raise(gpm) else
    var xpm := Get(player, "xp_per_min");
    if !xpm.Ok? then Raise(xpm) else
    Ok(info[PlayerSlot := slot.value][HeroId := hero.value][Kills := kills.value][Deaths := deaths.value]
           [Assists := assists.value][GoldPerMin := gpm.value][XpPerMin := xpm.value])
  }

  /** `process_lol_match_data`: one row per entry of `info.teams`. */
  function LolSchema(): Schema { Schema(LolMatchInfo, ["info", "teams"], LolTeamRow) }

  /** `process_dota_match_data`: one row per entry of `players`. */
  function DotaSchema(): Schema { Schema(DotaMatchInfo, ["players"], DotaPlayerRow) }

  /** How the processing of one match ended. */
  datatype MatchEnd = Completed | KeyErrorCaught | TypeErrorEscaped

  /** The rows one match appends, and how its processing ended. */
  datatype Emitted = Emitted(rows: seq<Row>, end: MatchEnd)

  /** The inner loop: one row per element until an element's fields raise. */
  function ElementRows(s: Schema, info: Row, elems: seq<Json>): (e: Emitted)
    ensures |e.rows| <= |elems|
    ensures e.end.Completed? ==> |e.rows| == |elems|
    decreases |elems|
  {
    if elems == [] then Emitted([], Completed)
    else match s.elementRow(info, elems[0])
      case Ok(row) =>
        var rest := ElementRows(s, info, elems[1..]);
        Emitted([row] + rest.rows, rest.end)
      case KeyError => Emitted([], KeyErrorCaught)
      case TypeError => Emitted([], TypeErrorEscaped)
  }

  /**
   * One pass of the outer loop: the match-level fields first, then the element
   * list, then the inner loop.
   */
  function MatchRows(s: Schema, m: Json): Emitted
  {
    match s.matchInfo(m)
    case KeyError => Emitted([], KeyErrorCaught)
    case TypeError => Emitted([], TypeErrorEscaped)
    case Ok(info) =>
      match Path(m, s.elements)
      case KeyError => Emitted([], KeyErrorCaught)
      case TypeError => Emitted([], TypeErrorEscaped)
      case Ok(list) =>
        match Iterate(list)
        case Ok(elems) => ElementRows(s, info, elems)
        case _ => Emitted([], TypeErrorEscaped)
  }

  /** What a builder call gives: the row list handed to `pd.DataFrame`, or the `TypeError` it raises. */
  datatype Processed = Rows(rows: seq<Row>) | TypeErrorRaised

  /** `rows` appended before a run that goes on to give `p`. */
  function Prepend(rows: seq<Row>, p: Processed): Processed
  {
    match p
    case Rows(r) => Rows(rows + r)
    case TypeErrorRaised => TypeErrorRaised
  }

  /** One match's rows followed by the processing of the matches after it. */
  function After(e: Emitted, rest: Processed): Processed
  {
    if e.end.TypeErrorEscaped? then TypeErrorRaised else Prepend(e.rows, rest)
  }

  /** The whole call, match by match in input order. */
  function Flatten(s: Schema, matches: seq<Json>): Processed
    decreases |matches|
  {
    if matches == [] then Rows([])
    else After(MatchRows(s, matches[0]), Flatten(s, matches[1..]))
  }

  lemma PrependPrepend(a: seq<Row>, b: seq<Row>, p: Processed)
    ensures Prepend(a, Prepend(b, p)) == Prepend(a + b, p)
  {
    if p.Rows? {
      assert a + (b + p.rows) == (a + b) + p.rows;
    }
  }

  lemma PrependEmpty(p: Processed)
    ensures Prepend([], p) == p
  {
    if p.Rows? {
      assert [] + p.rows == p.rows;
    }
  }

  /** Unfolding `Flatten` at position `i`. */
  lemma FlattenAt(s: Schema, matches: seq<Json>, i: nat)
    requires i < |matches|
    ensures Flatten(s, matches[i..]) == After(MatchRows(s, matches[i]), Flatten(s, matches[i + 1..]))
  {
    assert matches[i..][1..] == matches[i + 1..];
  }

  /** Unfolding `ElementRows` at position `j` for an element whose fields are all read. */
  lemma ElementRowsAt(s: Schema, info: Row, elems: seq<Json>, j: nat, row: Row, rest: Processed)
    requires j < |elems| && s.elementRow(info, elems[j]) == Ok(row)
    ensures After(ElementRows(s, info, elems[j..]), rest)
         == Prepend([row], After(ElementRows(s, info, elems[j + 1..]), rest))
  {
    assert elems[j..][1..] == elems[j + 1..];
    var r := ElementRows(s, info, elems[j + 1..]);
    if !r.end.TypeErrorEscaped? {
      PrependPrepend([row], r.rows, rest);
    }
  }

  /**
   * The nested loops of a builder: `processed` grows by `append` exactly as
   * `Flatten` says, a `KeyError` moves on to the next match and a `TypeError`
   * ends the call.
   */
  method FlattenMatches(s: Schema, matches: seq<Json>) returns (result: Processed)
    ensures result == Flatten(s, matches)
  {
    var processed: seq<Row> := [];
    var i := 0;
    while i < |matches|
      invariant i <= |matches|
      invariant Flatten(s, matches) == Prepend(processed, Flatten(s, matches[i..]))
    {
      var m := matches[i];
      ghost var later := Flatten(s, matches[i + 1..]);
      FlattenAt(s, matches, i);
      var info := s.matchInfo(m);
      if info.TypeError? {
        assert MatchRows(s, m).end.TypeErrorEscaped?;
        return TypeErrorRaised;
      } else if info.KeyError? {
        assert MatchRows(s, m) == Emitted([], KeyErrorCaught);
        PrependEmpty(later);
      } else {
        var list := Path(m, s.elements);
        if list.TypeError? {
          assert MatchRows(s, m).end.TypeErrorEscaped?;
          return TypeErrorRaised;
        } else if list.KeyError? {
          assert MatchRows(s, m) == Emitted([], KeyErrorCaught);
          PrependEmpty(later);
        } else {
          var elems := Iterate(list.value);
          if !elems.Ok? {
            assert MatchRows(s, m).end.TypeErrorEscaped?;
            return TypeErrorRaised;
          }
          assert MatchRows(s, m) == ElementRows(s, info.value, elems.value);
          assert elems.value[0..] == elems.value;
          var j := 0;
          while j < |elems.value|
            invariant j <= |elems.value|
            invariant Flatten(s, matches)
                   == Prepend(processed, After(ElementRows(s, info.value, elems.value[j..]), later))
          {
            var row := s.elementRow(info.value, elems.value[j]);
            if row.TypeError? {
              assert ElementRows(s, info.value, elems.value[j..]).end.TypeErrorEscaped?;
              return TypeErrorRaised;
            }
            if row.KeyError? {
              assert ElementRows(s, info.value, elems.value[j..]) == Emitted([], KeyErrorCaught);
              PrependEmpty(later);
              break;
            }
            ElementRowsAt(s, info.value, elems.value, j, row.value, later);
            PrependPrepend(processed, [row.value], After(ElementRows(s, info.value, elems.value[j + 1..]), later));
            processed := processed + [row.value];
            j := j + 1;
          }
          if j == |elems.value| {
            assert elems.value[j..] == [];
            PrependEmpty(later);
          }
        }
      }
      i := i + 1;
    }
    assert processed + [] == processed;
    return Rows(processed);
  }

  /** `process_lol_match_data` up to the `pd.DataFrame` call. */
  method ProcessLolMatchData(matchData: seq<Json>) returns (result: Processed)
    ensures result == Flatten(LolSchema(), matchData)
  {
    result := FlattenMatches(LolSchema(), matchData);
  }

  /** `process_dota_match_data` up to the `pd.DataFrame` call. */
  method ProcessDotaMatchData(matchData: seq<Json>) returns (result: Processed)
    ensures result == Flatten(DotaSchema(), matchData)
  {
    result := FlattenMatches(DotaSchema(), matchData);
  }
}
