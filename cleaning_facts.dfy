/**
 * What `clean_data` guarantees: its rows are a subsequence of its input, none
 * has a missing value, no two are duplicates (the first of each group of
 * duplicates is the one kept), every duration exceeds 300, and cleaning the
 * result again changes nothing.
 */
module CleaningFacts {
  import opened PyJson
  import opened DataProcessing
  import opened DataCleaning
  import ProcessingFacts

  /** `a` is the subsequence of `b` at the strictly increasing positions `pos`. */
  ghost predicate Picks(a: seq<Row>, b: seq<Row>, pos: seq<nat>)
  {
    && |pos| == |a|
    && (forall j :: 0 <= j < |a| ==> pos[j] < |b| && a[j] == b[pos[j]])
    && (forall j, k :: 0 <= j < k < |a| ==> pos[j] < pos[k])
  }

  function Shift(pos: seq<nat>): (r: seq<nat>)
    ensures |r| == |pos| && forall j :: 0 <= j < |pos| ==> r[j] == pos[j] + 1
  {
    seq(|pos|, j requires 0 <= j < |pos| => pos[j] + 1)
  }

  /** Picking from the tail of `b` is picking from `b`, with or without its head. */
  lemma PicksTail(a: seq<Row>, b: seq<Row>, pos: seq<nat>)
    requires b != [] && Picks(a, b[1..], pos)
    ensures Picks(a, b, Shift(pos))
    ensures Picks([b[0]] + a, b, [0] + Shift(pos))
  {
    var p := [0] + Shift(pos);
    var r := [b[0]] + a;
    forall j | 0 <= j < |r|
      ensures p[j] < |b| && r[j] == b[p[j]]
    {
      if j > 0 {
        assert r[j] == a[j - 1] && p[j] == pos[j - 1] + 1;
      }
    }
  }

  /** A subsequence of a subsequence. */
  lemma PicksTrans(a: seq<Row>, b: seq<Row>, c: seq<Row>, p: seq<nat>, q: seq<nat>) returns (pos: seq<nat>)
    requires Picks(a, b, p) && Picks(b, c, q)
    ensures Picks(a, c, pos)
  {
    pos := seq(|p|, j requires 0 <= j < |p| => q[p[j]]);
    forall j, k | 0 <= j < k < |a|
      ensures pos[j] < pos[k]
    {
      assert p[j] < p[k];
    }
  }

  /** `df[mask]` keeps exactly the rows the mask holds for, in order. */
  lemma {:induction false} WhereSpec(rows: seq<Row>, keep: Row -> bool) returns (pos: seq<nat>)
    ensures Picks(Where(rows, keep), rows, pos)
    ensures forall i :: 0 <= i < |rows| && keep(rows[i]) ==> i in pos
  {
    if rows == [] {
      pos := [];
    } else {
      var tail := WhereSpec(rows[1..], keep);
      PicksTail(Where(rows[1..], keep), rows, tail);
      pos := if keep(rows[0]) then [0] + Shift(tail) else Shift(tail);
      forall i | 0 <= i < |rows| && keep(rows[i])
        ensures i in pos
      {
        if i > 0 {
          assert rows[1..][i - 1] == rows[i];
          var j :| 0 <= j < |tail| && tail[j] == i - 1;
          assert pos[if keep(rows[0]) then j + 1 else j] == i;
        }
      }
    }
  }

  /** A mask that holds everywhere keeps every row. */
  lemma {:induction false} WhereAll(rows: seq<Row>, keep: Row -> bool)
    requires forall i :: 0 <= i < |rows| ==> keep(rows[i])
    ensures Where(rows, keep) == rows
  {
    if rows != [] {
      WhereAll(rows[1..], keep);
    }
  }

  /** Distinct positions of a duplicate-free sequence hold distinct keys. */
  ghost predicate DistinctKeys(columns: set<Column>, rows: seq<Row>)
  {
    forall j, k :: 0 <= j < k < |rows| ==> KeyOf(columns, rows[j]) != KeyOf(columns, rows[k])
  }

  lemma PicksDistinct(columns: set<Column>, a: seq<Row>, b: seq<Row>, pos: seq<nat>)
    requires Picks(a, b, pos) && DistinctKeys(columns, b)
    ensures DistinctKeys(columns, a)
  {
    forall j, k | 0 <= j < k < |a|
      ensures KeyOf(columns, a[j]) != KeyOf(columns, a[k])
    {
      assert pos[j] < pos[k];
    }
  }

  lemma PicksHashable(columns: set<Column>, a: seq<Row>, b: seq<Row>, pos: seq<nat>)
    requires Picks(a, b, pos) && Hashable(columns, b)
    ensures Hashable(columns, a)
  {
    forall i, c | 0 <= i < |a| && c in columns
      ensures !Unhashable(Cell(a[i], c))
    {
      assert a[i] == b[pos[i]];
    }
  }

  /** No row of `r` has a key in `seen`. */
  ghost predicate Unseen(columns: set<Column>, r: seq<Row>, seen: set<Key>)
  {
    forall j :: 0 <= j < |r| ==> KeyOf(columns, r[j]) !in seen
  }

  /** No row duplicate removal keeps has a key seen before. */
  lemma {:induction false} DedupeUnseen(columns: set<Column>, rows: seq<Row>, seen: set<Key>)
    ensures Unseen(columns, Dedupe(columns, rows, seen), seen)
  {
    if rows != [] {
      var k := KeyOf(columns, rows[0]);
      if k in seen {
        DedupeUnseen(columns, rows[1..], seen);
      } else {
        DedupeUnseen(columns, rows[1..], seen + {k});
        var rest := Dedupe(columns, rows[1..], seen + {k});
        var r := Dedupe(columns, rows, seen);
        assert r == [rows[0]] + rest;
        forall j | 0 <= j < |r|
          ensures KeyOf(columns, r[j]) !in seen
        {
          if j > 0 {
            assert r[j] == rest[j - 1];
          }
        }
      }
    }
  }

  /** The rows duplicate removal keeps have pairwise distinct keys. */
  lemma {:induction false} DedupeDistinctKeys(columns: set<Column>, rows: seq<Row>, seen: set<Key>)
    ensures DistinctKeys(columns, Dedupe(columns, rows, seen))
  {
    if rows != [] {
      var k := KeyOf(columns, rows[0]);
      if k in seen {
        DedupeDistinctKeys(columns, rows[1..], seen);
        assert Dedupe(columns, rows, seen) == Dedupe(columns, rows[1..], seen);
      } else {
        DedupeDistinctKeys(columns, rows[1..], seen + {k});
        DedupeUnseen(columns, rows[1..], seen + {k});
        var rest := Dedupe(columns, rows[1..], seen + {k});
        var r := Dedupe(columns, rows, seen);
        assert r == [rows[0]] + rest;
        forall j, m | 0 <= j < m < |r|
          ensures KeyOf(columns, r[j]) != KeyOf(columns, r[m])
        {
          assert r[m] == rest[m - 1];
          if j > 0 {
            assert r[j] == rest[j - 1];
          }
        }
      }
    }
  }

  /** No row before a kept row has its key. */
  ghost predicate FirstOfKey(columns: set<Column>, rows: seq<Row>, r: seq<Row>, pos: seq<nat>)
    requires |pos| == |r|
  {
    forall j, q :: 0 <= j < |r| && 0 <= q < pos[j] && q < |rows| ==> KeyOf(columns, rows[q]) != KeyOf(columns, r[j])
  }

  /** Duplicate removal keeps rows of its input in order, each the first of its key. */
  lemma {:induction false} DedupePicks(columns: set<Column>, rows: seq<Row>, seen: set<Key>) returns (pos: seq<nat>)
    ensures Picks(Dedupe(columns, rows, seen), rows, pos)
    ensures FirstOfKey(columns, rows, Dedupe(columns, rows, seen), pos)
  {
    if rows == [] {
      pos := [];
    } else {
      var k := KeyOf(columns, rows[0]);
      var seen' := if k in seen then seen else seen + {k};
      var rest := Dedupe(columns, rows[1..], seen');
      var tail := DedupePicks(columns, rows[1..], seen');
      DedupeUnseen(columns, rows[1..], seen');
      PicksTail(rest, rows, tail);
      assert Dedupe(columns, rows, seen) == if k in seen then rest else [rows[0]] + rest;
      pos := if k in seen then Shift(tail) else [0] + Shift(tail);
      FirstOfKeyStep(columns, rows, Dedupe(columns, rows, seen), rest, tail, pos, if k in seen then 0 else 1);
    }
  }

  /** The step of `DedupePicks`: a head row that is kept (`d == 1`) or dropped (`d == 0`). */
  lemma FirstOfKeyStep(columns: set<Column>, rows: seq<Row>, r: seq<Row>, rest: seq<Row>, tail: seq<nat>, pos: seq<nat>, d: nat)
    requires rows != [] && d <= 1
    requires |r| == |rest| + d && |pos| == |r| && |tail| == |rest|
    requires d == 1 ==> r[0] == rows[0] && pos[0] == 0
    requires forall j :: 0 <= j < |rest| ==> r[j + d] == rest[j] && pos[j + d] == tail[j] + 1
    requires FirstOfKey(columns, rows[1..], rest, tail)
    requires forall j :: 0 <= j < |rest| ==> KeyOf(columns, rest[j]) != KeyOf(columns, rows[0])
    ensures FirstOfKey(columns, rows, r, pos)
  {
    forall j, q | 0 <= j < |r| && 0 <= q < pos[j] && q < |rows|
      ensures KeyOf(columns, rows[q]) != KeyOf(columns, r[j])
    {
      var t := j - d;
      assert r[t + d] == rest[t] && pos[t + d] == tail[t] + 1;
      if q > 0 {
        assert rows[q] == rows[1..][q - 1];
      }
    }
  }

  /** Every key of `rows` that is not in `seen` is the key of some row of `r`. */
  ghost predicate Covers(columns: set<Column>, rows: seq<Row>, r: seq<Row>, seen: set<Key>)
  {
    forall i :: 0 <= i < |rows| && KeyOf(columns, rows[i]) !in seen ==>
      exists j :: 0 <= j < |r| && KeyOf(columns, r[j]) == KeyOf(columns, rows[i])
  }

  /** Every key not seen before is kept. */
  lemma {:induction false} DedupeCovers(columns: set<Column>, rows: seq<Row>, seen: set<Key>)
    ensures Covers(columns, rows, Dedupe(columns, rows, seen), seen)
  {
    if rows != [] {
      var k := KeyOf(columns, rows[0]);
      var seen' := if k in seen then seen else seen + {k};
      var rest := Dedupe(columns, rows[1..], seen');
      DedupeCovers(columns, rows[1..], seen');
      var r := Dedupe(columns, rows, seen);
      assert r == if k in seen then rest else [rows[0]] + rest;
      var d := if k in seen then 0 else 1;
      forall i | 0 <= i < |rows| && KeyOf(columns, rows[i]) !in seen
        ensures exists j :: 0 <= j < |r| && KeyOf(columns, r[j]) == KeyOf(columns, rows[i])
      {
        if KeyOf(columns, rows[i]) == k {
          assert KeyOf(columns, r[0]) == k;
        } else {
          assert rows[i] == rows[1..][i - 1];
          var j :| 0 <= j < |rest| && KeyOf(columns, rest[j]) == KeyOf(columns, rows[i]);
          assert r[j + d] == rest[j];
        }
      }
    }
  }

  /** Rows whose keys are distinct and unseen are all kept. */
  lemma {:induction false} DedupeDistinct(columns: set<Column>, rows: seq<Row>, seen: set<Key>)
    requires DistinctKeys(columns, rows)
    requires Unseen(columns, rows, seen)
    ensures Dedupe(columns, rows, seen) == rows
  {
    if rows != [] {
      var k := KeyOf(columns, rows[0]);
      var tail := rows[1..];
      forall i | 0 <= i < |tail|
        ensures KeyOf(columns, tail[i]) !in seen + {k}
      {
        assert tail[i] == rows[i + 1];
      }
      forall j, m | 0 <= j < m < |tail|
        ensures KeyOf(columns, tail[j]) != KeyOf(columns, tail[m])
      {
        assert tail[j] == rows[j + 1] && tail[m] == rows[m + 1];
      }
      DedupeDistinct(columns, tail, seen + {k});
    }
  }

  /**
   * `drop_duplicates` on a frame with rows and columns: it raises TypeError
   * exactly when some cell is a list or dict; otherwise it keeps the first row
   * of every group of duplicates, in order, and only those.
   */
  lemma DropDuplicatesSpec(f: Frame) returns (pos: seq<nat>)
    requires f.rows != [] && f.columns != {}
    ensures DropDuplicates(f).TypeError? <==> exists i, c :: 0 <= i < |f.rows| && c in f.columns && Unhashable(Cell(f.rows[i], c))
    ensures DropDuplicates(f).Ok? ==>
      && DropDuplicates(f).value.columns == f.columns
      && Picks(DropDuplicates(f).value.rows, f.rows, pos)
      && DistinctKeys(f.columns, DropDuplicates(f).value.rows)
      && FirstOfKey(f.columns, f.rows, DropDuplicates(f).value.rows, pos)
      && Covers(f.columns, f.rows, DropDuplicates(f).value.rows, {})
  {
    pos := DedupePicks(f.columns, f.rows, {});
    DedupeDistinctKeys(f.columns, f.rows, {});
    DedupeCovers(f.columns, f.rows, {});
  }

  /** The identity positions: every sequence picks itself. */
  lemma PicksSelf(a: seq<Row>) returns (pos: seq<nat>)
    ensures Picks(a, a, pos)
  {
    pos := seq(|a|, j requires 0 <= j < |a| => j);
  }

  /** `drop_duplicates` keeps the columns and a subsequence of the rows. */
  lemma DropDuplicatesPicks(f: Frame) returns (pos: seq<nat>)
    requires DropDuplicates(f).Ok?
    ensures DropDuplicates(f).value.columns == f.columns
    ensures Picks(DropDuplicates(f).value.rows, f.rows, pos)
  {
    if f.rows == [] || f.columns == {} {
      pos := PicksSelf(f.rows);
    } else {
      pos := DedupePicks(f.columns, f.rows, {});
    }
  }

  /**
   * The duration filter keeps the columns and a subsequence of the rows; when
   * the frame has a `game_duration` column, every row kept is longer than five
   * minutes, and every row longer than five minutes is kept.
   */
  lemma FilterDurationSpec(f: Frame) returns (pos: seq<nat>)
    requires FilterDuration(f).Ok?
    ensures FilterDuration(f).value.columns == f.columns
    ensures Picks(FilterDuration(f).value.rows, f.rows, pos)
    ensures GameDuration in f.columns ==>
      && (forall j :: 0 <= j < |FilterDuration(f).value.rows| ==> LongerThanFiveMinutes(FilterDuration(f).value.rows[j]))
      && (forall i :: 0 <= i < |f.rows| && LongerThanFiveMinutes(f.rows[i]) ==> i in pos)
  {
    if GameDuration !in f.columns {
      pos := PicksSelf(f.rows);
    } else {
      pos := WhereSpec(f.rows, LongerThanFiveMinutes);
    }
  }

  /** The output of `clean_data` is a subsequence of the output of its `dropna`. */
  lemma CleanPicksFromDropNa(f: Frame) returns (pos: seq<nat>)
    requires Clean(f).Ok?
    ensures Clean(f).value.columns == f.columns
    ensures Picks(Clean(f).value.rows, DropNa(f).rows, pos)
  {
    var na := DropNa(f);
    var g := DropDuplicates(na).value;
    var p2 := DropDuplicatesPicks(na);
    var p3 := FilterDurationSpec(g);
    pos := PicksTrans(Clean(f).value.rows, g.rows, na.rows, p3, p2);
  }
  /** Every row `clean_data` returns is one of its input rows, in the original order. */
  lemma CleanPicks(f: Frame) returns (pos: seq<nat>)
    requires Clean(f).Ok?
    ensures Clean(f).value.columns == f.columns
    ensures Picks(Clean(f).value.rows, f.rows, pos)
  {
    var p1 := WhereSpec(f.rows, (row: Row) => Complete(f.columns, row));
    var p2 := CleanPicksFromDropNa(f);
    pos := PicksTrans(Clean(f).value.rows, DropNa(f).rows, f.rows, p2, p1);
  }

  /** No row `clean_data` returns has a missing value. */
  lemma CleanComplete(f: Frame)
    requires Clean(f).Ok?
    ensures forall j :: 0 <= j < |Clean(f).value.rows| ==> Complete(f.columns, Clean(f).value.rows[j])
  {
    var pos := CleanPicksFromDropNa(f);
  }

  /**
   * No two rows `clean_data` returns are duplicates (a frame without columns
   * is the exception: `drop_duplicates` returns it untouched).
   */
  lemma CleanDistinct(f: Frame)
    requires Clean(f).Ok? && f.columns != {}
    ensures DistinctKeys(f.columns, Clean(f).value.rows)
  {
    var na := DropNa(f);
    var g := DropDuplicates(na).value;
    if na.rows == [] {
      assert g.rows == [];
    } else {
      DedupeDistinctKeys(na.columns, na.rows, {});
    }
    var pos := FilterDurationSpec(g);
    PicksDistinct(f.columns, Clean(f).value.rows, g.rows, pos);
  }

  /** When the frame has a `game_duration` column, every duration `clean_data` keeps is an integer above 300. */
  lemma CleanDurations(f: Frame)
    requires Clean(f).Ok? && GameDuration in f.columns
    ensures forall j :: 0 <= j < |Clean(f).value.rows| ==>
      Cell(Clean(f).value.rows[j], GameDuration).JInt? && Cell(Clean(f).value.rows[j], GameDuration).i > 300
  {
    var g := DropDuplicates(DropNa(f)).value;
    var pos := FilterDurationSpec(g);
  }

  /** A row that makes `clean_data` raise: complete, and holding a list or dict, or a string duration. */
  ghost predicate Poisoned(columns: set<Column>, row: Row)
  {
    && Complete(columns, row)
    && ((exists c :: c in columns && Unhashable(Cell(row, c)))
        || (GameDuration in columns && Cell(row, GameDuration).JStr?))
  }

  /** `clean_data` raises TypeError exactly when some row is poisoned; rows `dropna` removes never are. */
  lemma CleanTypeError(f: Frame)
    ensures Clean(f).TypeError? <==> exists i :: 0 <= i < |f.rows| && Poisoned(f.columns, f.rows[i])
  {
    var na := DropNa(f);
    var p1 := WhereSpec(f.rows, (row: Row) => Complete(f.columns, row));
    if exists i :: 0 <= i < |f.rows| && Poisoned(f.columns, f.rows[i]) {
      var i :| 0 <= i < |f.rows| && Poisoned(f.columns, f.rows[i]);
      PoisonedRowRaises(f, p1, i);
    }
    if Clean(f).TypeError? {
      RaiseHasPoisonedRow(f, p1);
    }
  }

  /** A poisoned row survives `dropna` and makes one of the later steps raise. */
  lemma PoisonedRowRaises(f: Frame, p1: seq<nat>, i: nat)
    requires Picks(DropNa(f).rows, f.rows, p1)
    requires forall i :: 0 <= i < |f.rows| && Complete(f.columns, f.rows[i]) ==> i in p1
    requires i < |f.rows| && Poisoned(f.columns, f.rows[i])
    ensures Clean(f).TypeError?
  {
    var na := DropNa(f);
    var row := f.rows[i];
    var j :| 0 <= j < |p1| && p1[j] == i;
    assert na.rows[j] == row;
    if exists c :: c in f.columns && Unhashable(Cell(row, c)) {
      var c :| c in f.columns && Unhashable(Cell(row, c));
      assert !Hashable(na.columns, na.rows);
    } else if Hashable(na.columns, na.rows) {
      StringDurationSurvives(na, j);
    }
  }

  /** A string duration survives duplicate removal: the first row with its key has the same duration. */
  lemma StringDurationSurvives(g: Frame, j: nat)
    requires Hashable(g.columns, g.rows) && GameDuration in g.columns
    requires j < |g.rows| && Cell(g.rows[j], GameDuration).JStr?
    ensures DropDuplicates(g).Ok?
    ensures exists m :: 0 <= m < |DropDuplicates(g).value.rows| && Uncomparable(Cell(DropDuplicates(g).value.rows[m], GameDuration))
  {
    var r := Dedupe(g.columns, g.rows, {});
    assert DropDuplicates(g) == Ok(Frame(g.columns, r));
    DedupeCovers(g.columns, g.rows, {});
    var m :| 0 <= m < |r| && KeyOf(g.columns, r[m]) == KeyOf(g.columns, g.rows[j]);
    assert KeyOf(g.columns, r[m])[GameDuration] == Norm(Cell(r[m], GameDuration));
    assert Uncomparable(Cell(r[m], GameDuration));
  }

  /** When `clean_data` raises, some row is poisoned. */
  lemma RaiseHasPoisonedRow(f: Frame, p1: seq<nat>)
    requires Picks(DropNa(f).rows, f.rows, p1)
    requires Clean(f).TypeError?
    ensures exists i :: 0 <= i < |f.rows| && Poisoned(f.columns, f.rows[i])
  {
    var na := DropNa(f);
    if DropDuplicates(na).TypeError? {
      var j, c :| 0 <= j < |na.rows| && c in na.columns && Unhashable(Cell(na.rows[j], c));
      assert f.rows[p1[j]] == na.rows[j];
      assert Poisoned(f.columns, f.rows[p1[j]]);
    } else {
      var g := DropDuplicates(na).value;
      var p2 := DropDuplicatesPicks(na);
      var m :| 0 <= m < |g.rows| && Uncomparable(Cell(g.rows[m], GameDuration));
      assert g.rows[m] == na.rows[p2[m]] == f.rows[p1[p2[m]]];
      assert Poisoned(f.columns, f.rows[p1[p2[m]]]);
    }
  }

  /** Cleaning a cleaned frame changes nothing. */
  lemma CleanIdempotent(f: Frame)
    requires Clean(f).Ok?
    ensures Clean(Clean(f).value) == Clean(f)
  {
    var g := Clean(f).value;
    var cols := f.columns;
    CleanComplete(f);
    WhereAll(g.rows, (row: Row) => Complete(cols, row));
    assert DropNa(g) == g;
    if g.rows != [] && cols != {} {
      var na := DropNa(f);
      var p := CleanPicksFromDropNa(f);
      assert na.rows != [];
      PicksHashable(cols, g.rows, na.rows, p);
      CleanDistinct(f);
      DedupeDistinct(cols, g.rows, {});
    }
    assert DropDuplicates(g) == Ok(g);
    if GameDuration in cols {
      CleanDurations(f);
      WhereAll(g.rows, LongerThanFiveMinutes);
    }
  }

  /**
   * The frame `pd.DataFrame` builds from the rows of either builder has exactly
   * that builder's columns, `game_duration` among them, so the duration
   * filter always applies, and `dropna` removes exactly the rows holding a JSON null.
   */
  lemma BuiltFrame(s: Schema, mc: set<Column>, ec: set<Column>, matches: seq<Json>)
    requires ProcessingFacts.BuildsColumns(s, mc, ec)
    requires Flatten(s, matches).Rows? && Flatten(s, matches).rows != []
    ensures ToFrame(Flatten(s, matches).rows).columns == mc + ec
    ensures forall i :: 0 <= i < |Flatten(s, matches).rows| ==>
      (Complete(mc + ec, Flatten(s, matches).rows[i]) <==>
       forall c :: c in Flatten(s, matches).rows[i] ==> !Flatten(s, matches).rows[i][c].JNull?)
  {
    var rows := Flatten(s, matches).rows;
    ProcessingFacts.FlattenColumns(s, mc, ec, matches);
    assert rows[0] in rows;
    var cols := ToFrame(rows).columns;
    forall c | c in mc + ec
      ensures c in cols
    {
      assert c in rows[0];
    }
    forall c | c in cols
      ensures c in mc + ec
    {
      var i :| 0 <= i < |rows| && c in rows[i];
      assert rows[i] in rows;
    }
    forall i | 0 <= i < |rows|
      ensures rows[i].Keys == mc + ec
    {
      assert rows[i] in rows;
    }
  }

  lemma LolFrameHasDuration(matches: seq<Json>)
    requires Flatten(LolSchema(), matches).Rows? && Flatten(LolSchema(), matches).rows != []
    ensures GameDuration in ToFrame(Flatten(LolSchema(), matches).rows).columns
  {
    ProcessingFacts.LolBuildsColumns();
    BuiltFrame(LolSchema(), {MatchId, GameDuration, GameVersion, QueueId},
               {TeamId, Win, FirstBlood, FirstTower, TotalTowers, TotalDragons, TotalBarons}, matches);
  }

  lemma DotaFrameHasDuration(matches: seq<Json>)
    requires Flatten(DotaSchema(), matches).Rows? && Flatten(DotaSchema(), matches).rows != []
    ensures GameDuration in ToFrame(Flatten(DotaSchema(), matches).rows).columns
  {
    ProcessingFacts.DotaBuildsColumns();
    BuiltFrame(DotaSchema(), {MatchId, GameDuration, RadiantWin, LeagueId, SeriesId, RadiantScore, DireScore},
               {PlayerSlot, HeroId, Kills, Deaths, Assists, GoldPerMin, XpPerMin}, matches);
  }
}
