/**
 * What the row builders promise: one row per element in element order, rows
 * carrying the match's fields and the element's fields, a `KeyError` dropping
 * the rest of its match only, and a `TypeError` ending the call.
 */
module ProcessingFacts {
  import opened PyJson
  import opened DataProcessing

  /**
   * The inner loop, element by element: the `k`-th row is built from the
   * `k`-th element, and the loop stops early exactly at the first element whose
   * fields raise, with that element's error.
   */
  lemma {:induction false} ElementRowsSpec(s: Schema, info: Row, elems: seq<Json>)
    ensures var e := ElementRows(s, info, elems);
      && (forall k :: 0 <= k < |e.rows| ==> s.elementRow(info, elems[k]) == Ok(e.rows[k]))
      && (e.end.Completed? <==> |e.rows| == |elems|)
      && (e.end.KeyErrorCaught? <==> |e.rows| < |elems| && s.elementRow(info, elems[|e.rows|]).KeyError?)
      && (e.end.TypeErrorEscaped? <==> |e.rows| < |elems| && s.elementRow(info, elems[|e.rows|]).TypeError?)
    decreases |elems|
  {
    if elems != [] && s.elementRow(info, elems[0]).Ok? {
      var tail := elems[1..];
      ElementRowsSpec(s, info, tail);
      var e := ElementRows(s, info, elems);
      var r := ElementRows(s, info, tail);
      assert e.rows == [s.elementRow(info, elems[0]).value] + r.rows;
      forall k | 1 <= k < |e.rows|
        ensures s.elementRow(info, elems[k]) == Ok(e.rows[k])
      {
        assert e.rows[k] == r.rows[k - 1] && elems[k] == tail[k - 1];
      }
      if |r.rows| < |tail| {
        assert elems[|e.rows|] == tail[|r.rows|];
      }
    }
  }

  /** Every part of a match can be read: its match fields, its element list and every element's fields. */
  predicate Readable(s: Schema, m: Json)
  {
    && s.matchInfo(m).Ok?
    && Path(m, s.elements).Ok?
    && Iterate(Path(m, s.elements).value).Ok?
    && forall e :: e in Iterate(Path(m, s.elements).value).value ==>
         s.elementRow(s.matchInfo(m).value, e).Ok?
  }

  /**
   * A readable match yields exactly one row per element, in element order, each
   * the match's fields extended with that element's fields.
   */
  lemma ReadableMatchRows(s: Schema, m: Json)
    requires Readable(s, m)
    ensures var info := s.matchInfo(m).value;
      var elems := Iterate(Path(m, s.elements).value).value;
      var e := MatchRows(s, m);
      && e.end == Completed
      && |e.rows| == |elems|
      && forall k :: 0 <= k < |elems| ==> s.elementRow(info, elems[k]) == Ok(e.rows[k])
  {
    var info := s.matchInfo(m).value;
    var elems := Iterate(Path(m, s.elements).value).value;
    ElementRowsSpec(s, info, elems);
    var e := ElementRows(s, info, elems);
    if |e.rows| < |elems| {
      assert elems[|e.rows|] in elems;
    }
  }

  /** A `KeyError` in the match fields or the element list drops the whole match, and the next match is processed. */
  lemma MatchKeyErrorSkipsMatch(s: Schema, m: Json, rest: seq<Json>)
    requires || s.matchInfo(m).KeyError?
             || (s.matchInfo(m).Ok? && Path(m, s.elements).KeyError?)
    ensures MatchRows(s, m) == Emitted([], KeyErrorCaught)
    ensures Flatten(s, [m] + rest) == Flatten(s, rest)
  {
    assert ([m] + rest)[1..] == rest;
    PrependEmpty(Flatten(s, rest));
  }

  /**
   * A `KeyError` in the `j`-th element keeps the `j` rows of the elements before
   * it, skips the elements after it, and processing goes on with the next match.
   */
  lemma ElementKeyErrorKeepsEarlierRows(s: Schema, m: Json, rest: seq<Json>, j: nat)
    requires s.matchInfo(m).Ok? && Path(m, s.elements).Ok? && Iterate(Path(m, s.elements).value).Ok?
    requires var info := s.matchInfo(m).value;
      var elems := Iterate(Path(m, s.elements).value).value;
      && j < |elems|
      && (forall k :: 0 <= k < j ==> s.elementRow(info, elems[k]).Ok?)
      && s.elementRow(info, elems[j]).KeyError?
    ensures var info := s.matchInfo(m).value;
      var elems := Iterate(Path(m, s.elements).value).value;
      var e := MatchRows(s, m);
      && e.end == KeyErrorCaught
      && |e.rows| == j
      && (forall k :: 0 <= k < j ==> s.elementRow(info, elems[k]) == Ok(e.rows[k]))
    ensures Flatten(s, [m] + rest) == Prepend(MatchRows(s, m).rows, Flatten(s, rest))
  {
    var info := s.matchInfo(m).value;
    var elems := Iterate(Path(m, s.elements).value).value;
    ElementRowsSpec(s, info, elems);
    assert ([m] + rest)[1..] == rest;
  }

  /** Processing a concatenation processes the first part, then (unless it raised) the second. */
  lemma {:induction false} FlattenAppend(s: Schema, a: seq<Json>, b: seq<Json>)
    ensures Flatten(s, a + b) == match Flatten(s, a)
      case Rows(r) => Prepend(r, Flatten(s, b))
      case TypeErrorRaised => TypeErrorRaised
    decreases |a|
  {
    if a == [] {
      assert a + b == b;
      PrependEmpty(Flatten(s, b));
    } else {
      assert (a + b)[0] == a[0] && (a + b)[1..] == a[1..] + b;
      FlattenAppend(s, a[1..], b);
      var e := MatchRows(s, a[0]);
      if !e.end.TypeErrorEscaped? && Flatten(s, a[1..]).Rows? {
        PrependPrepend(e.rows, Flatten(s, a[1..]).rows, Flatten(s, b));
      }
    }
  }

  /** The call raises `TypeError` exactly when some match raises one. */
  lemma {:induction false} FlattenRaises(s: Schema, matches: seq<Json>)
    ensures Flatten(s, matches).TypeErrorRaised?
        <==> exists i :: 0 <= i < |matches| && MatchRows(s, matches[i]).end.TypeErrorEscaped?
    decreases |matches|
  {
    if matches != [] {
      FlattenRaises(s, matches[1..]);
      if exists i :: 1 <= i < |matches| && MatchRows(s, matches[i]).end.TypeErrorEscaped? {
        var i :| 1 <= i < |matches| && MatchRows(s, matches[i]).end.TypeErrorEscaped?;
        assert matches[1..][i - 1] == matches[i];
      }
      if exists i :: 0 <= i < |matches| - 1 && MatchRows(s, matches[1..][i]).end.TypeErrorEscaped? {
        var i :| 0 <= i < |matches| - 1 && MatchRows(s, matches[1..][i]).end.TypeErrorEscaped?;
        assert matches[i + 1] == matches[1..][i];
      }
    }
  }

  /** A schema whose `match_info` always has `matchCols` and whose element rows add `elementCols`. */
  ghost predicate BuildsColumns(s: Schema, matchCols: set<Column>, elementCols: set<Column>)
  {
    && (forall m :: s.matchInfo(m).Ok? ==> s.matchInfo(m).value.Keys == matchCols)
    && (forall info, e :: s.elementRow(info, e).Ok? ==> s.elementRow(info, e).value.Keys == info.Keys + elementCols)
  }

  lemma LolBuildsColumns()
    ensures BuildsColumns(LolSchema(), {MatchId, GameDuration, GameVersion, QueueId},
                          {TeamId, Win, FirstBlood, FirstTower, TotalTowers, TotalDragons, TotalBarons})
  {
  }

  lemma DotaBuildsColumns()
    ensures BuildsColumns(DotaSchema(), {MatchId, GameDuration, RadiantWin, LeagueId, SeriesId, RadiantScore, DireScore},
                          {PlayerSlot, HeroId, Kills, Deaths, Assists, GoldPerMin, XpPerMin})
  {
  }

  /** Every row the inner loop builds has the match columns and the element columns. */
  lemma {:induction false} ElementRowsColumns(s: Schema, mc: set<Column>, ec: set<Column>, info: Row, elems: seq<Json>)
    requires BuildsColumns(s, mc, ec) && info.Keys == mc
    ensures forall row :: row in ElementRows(s, info, elems).rows ==> row.Keys == mc + ec
    decreases |elems|
  {
    if elems != [] {
      ElementRowsColumns(s, mc, ec, info, elems[1..]);
    }
  }

  /** Every row a builder hands to `pd.DataFrame` has the same columns, so the frame has no gaps. */
  lemma {:induction false} FlattenColumns(s: Schema, mc: set<Column>, ec: set<Column>, matches: seq<Json>)
    requires BuildsColumns(s, mc, ec)
    ensures Flatten(s, matches).Rows? ==> forall row :: row in Flatten(s, matches).rows ==> row.Keys == mc + ec
    decreases |matches|
  {
    if matches != [] {
      FlattenColumns(s, mc, ec, matches[1..]);
      var m := matches[0];
      var info := s.matchInfo(m);
      if info.Ok? && Path(m, s.elements).Ok? && Iterate(Path(m, s.elements).value).Ok? {
        ElementRowsColumns(s, mc, ec, info.value, Iterate(Path(m, s.elements).value).value);
      }
    }
  }

  /** A row of a match comes from the element at the same position of that match's element list. */
  lemma MatchRowSource(s: Schema, m: Json, k: nat)
    requires k < |MatchRows(s, m).rows|
    ensures s.matchInfo(m).Ok? && Path(m, s.elements).Ok? && Iterate(Path(m, s.elements).value).Ok?
    ensures var elems := Iterate(Path(m, s.elements).value).value;
      && k < |elems|
      && s.elementRow(s.matchInfo(m).value, elems[k]) == Ok(MatchRows(s, m).rows[k])
  {
    var info := s.matchInfo(m).value;
    var elems := Iterate(Path(m, s.elements).value).value;
    ElementRowsSpec(s, info, elems);
  }

  /**
   * A team row is the match's `match_info` plus the team's id and objective
   * fields, and `win` as 1 or 0 by the truthiness of the team's `win`.
   */
  lemma LolTeamRowValues(info: Row, team: Json)
    requires LolTeamRow(info, team).Ok?
    ensures var row := LolTeamRow(info, team).value;
      && Get(team, "teamId") == Ok(row[TeamId])
      && Get(team, "win").Ok?
      && row[Win] == (if Truthy(Get(team, "win").value) then JInt(1) else JInt(0))
      && Path(team, ["objectives", "champion", "first"]) == Ok(row[FirstBlood])
      && Path(team, ["objectives", "tower", "first"]) == Ok(row[FirstTower])
      && Path(team, ["objectives", "tower", "kills"]) == Ok(row[TotalTowers])
      && Path(team, ["objectives", "dragon", "kills"]) == Ok(row[TotalDragons])
      && Path(team, ["objectives", "baron", "kills"]) == Ok(row[TotalBarons])
  {
  }

  /** A team row keeps every entry of `match_info` that no team field overwrites, and `win` is 0 or 1. */
  lemma LolTeamRowKeepsInfo(info: Row, team: Json)
    requires LolTeamRow(info, team).Ok?
    ensures var row := LolTeamRow(info, team).value;
      && row[Win] in {JInt(0), JInt(1)}
      && forall c :: c in info && c !in {TeamId, Win, FirstBlood, FirstTower, TotalTowers, TotalDragons, TotalBarons} ==>
           row[c] == info[c]
  {
  }

  /** The `match_info` of a LoL match holds its id, duration, version and queue. */
  lemma LolMatchInfoValues(m: Json)
    requires LolMatchInfo(m).Ok?
    ensures var info := LolMatchInfo(m).value;
      && Path(m, ["metadata", "matchId"]) == Ok(info[MatchId])
      && Path(m, ["info", "gameDuration"]) == Ok(info[GameDuration])
      && Path(m, ["info", "gameVersion"]) == Ok(info[GameVersion])
      && Path(m, ["info", "queueId"]) == Ok(info[QueueId])
  {
  }

  /**
   * The `k`-th row of a LoL match is the row of the `k`-th team built on that
   * match's `match_info`, so it carries the eleven columns.
   */
  lemma LolMatchRow(m: Json, k: nat)
    requires k < |MatchRows(LolSchema(), m).rows|
    ensures LolMatchInfo(m).Ok? && Path(m, ["info", "teams"]).Ok? && Iterate(Path(m, ["info", "teams"]).value).Ok?
    ensures k < |Iterate(Path(m, ["info", "teams"]).value).value|
    ensures var row := MatchRows(LolSchema(), m).rows[k];
      var team := Iterate(Path(m, ["info", "teams"]).value).value[k];
      && LolTeamRow(LolMatchInfo(m).value, team) == Ok(row)
      && row.Keys == {MatchId, GameDuration, GameVersion, QueueId, TeamId, Win,
                      FirstBlood, FirstTower, TotalTowers, TotalDragons, TotalBarons}
  {
    MatchRowSource(LolSchema(), m, k);
  }

  /** A player row is the match's `match_info` plus the player's seven fields, each copied as it is. */
  lemma DotaPlayerRowValues(info: Row, player: Json)
    requires DotaPlayerRow(info, player).Ok?
    ensures var row := DotaPlayerRow(info, player).value;
      && Get(player, "player_slot") == Ok(row[PlayerSlot])
      && Get(player, "hero_id") == Ok(row[HeroId])
      && Get(player, "kills") == Ok(row[Kills])
      && Get(player, "deaths") == Ok(row[Deaths])
      && Get(player, "assists") == Ok(row[Assists])
      && Get(player, "gold_per_min") == Ok(row[GoldPerMin])
      && Get(player, "xp_per_min") == Ok(row[XpPerMin])
  {
  }

  /** A player row keeps every entry of `match_info` that no player field overwrites. */
  lemma DotaPlayerRowKeepsInfo(info: Row, player: Json)
    requires DotaPlayerRow(info, player).Ok?
    ensures var row := DotaPlayerRow(info, player).value;
      forall c :: c in info && c !in {PlayerSlot, HeroId, Kills, Deaths, Assists, GoldPerMin, XpPerMin} ==>
        row[c] == info[c]
  {
  }

  /** The `match_info` of a Dota match holds its seven match fields. */
  lemma DotaMatchInfoValues(m: Json)
    requires DotaMatchInfo(m).Ok?
    ensures var info := DotaMatchInfo(m).value;
      && Get(m, "match_id") == Ok(info[MatchId])
      && Get(m, "duration") == Ok(info[GameDuration])
      && Get(m, "radiant_win") == Ok(info[RadiantWin])
      && Get(m, "leagueid") == Ok(info[LeagueId])
      && Get(m, "series_id") == Ok(info[SeriesId])
      && Get(m, "radiant_score") == Ok(info[RadiantScore])
      && Get(m, "dire_score") == Ok(info[DireScore])
  {
  }

  /**
   * The `k`-th row of a Dota match is the row of the `k`-th player built on that
   * match's `match_info`, so it carries the fourteen columns.
   */
  lemma DotaMatchRow(m: Json, k: nat)
    requires k < |MatchRows(DotaSchema(), m).rows|
    ensures DotaMatchInfo(m).Ok? && Get(m, "players").Ok? && Iterate(Get(m, "players").value).Ok?
    ensures k < |Iterate(Get(m, "players").value).value|
    ensures var row := MatchRows(DotaSchema(), m).rows[k];
      var player := Iterate(Get(m, "players").value).value[k];
      && DotaPlayerRow(DotaMatchInfo(m).value, player) == Ok(row)
      && row.Keys == {MatchId, GameDuration, RadiantWin, LeagueId, SeriesId, RadiantScore, DireScore,
                      PlayerSlot, HeroId, Kills, Deaths, Assists, GoldPerMin, XpPerMin}
  {
    MatchRowSource(DotaSchema(), m, k);
    assert Path(m, ["players"]) == Get(m, "players");
  }
}
