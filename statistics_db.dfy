/**
 * The statistics readers of the core's storage services
 * (src/python/foglamp/core/statistics_db_services.py): the current value
 * of every statistics key, and the statistics history grouped by the time
 * it was recorded. The database connection is left out: the rows a query
 * returns are the input.
 */
module StatisticsDb {
  import opened Common

  /** A row of "SELECT * FROM statistics ORDER BY key". */
  datatype StatRow = StatRow(key: string, description: string, value: int, previousValue: int, ts: string)

  /** A row of the history query: history_ts as text, key and value. */
  datatype HistoryRow = HistoryRow(historyTs: string, key: string, value: int)

  /** One entry of the history result: {history_ts: {key: value, ...}}, None only for the entry of an empty result. */
  datatype HistoryEntry = HistoryEntry(historyTs: Option<string>, values: map<string, int>)

  /** The {key: value} pair a row contributes. */
  datatype KeyValue = KeyValue(key: string, value: int)

  /** The pair a statistics row contributes. */
  function StatPair(row: StatRow): KeyValue
  {
    KeyValue(row.key, row.value)
  }

  /** The pair a history row contributes. */
  function HistoryPair(row: HistoryRow): KeyValue
  {
    KeyValue(row.key, row.value)
  }

  /** The pairs of a sequence of rows, in row order. */
  function Pairs<R>(rows: seq<R>, pairOf: R -> KeyValue): (r: seq<KeyValue>)
    ensures |r| == |rows| && forall i :: 0 <= i < |rows| ==> r[i] == pairOf(rows[i])
    decreases |rows|
  {
    if rows == [] then []
    else Pairs(rows[..|rows| - 1], pairOf) + [pairOf(rows[|rows| - 1])]
  }

  /** The dict the pairs build when each one in turn updates it. */
  function LastValues(pairs: seq<KeyValue>): (r: map<string, int>)
    ensures pairs == [] ==> r == map[]
    decreases |pairs|
  {
    if pairs == [] then map[]
    else
      var last := pairs[|pairs| - 1];
      LastValues(pairs[..|pairs| - 1])[last.key := last.value]
  }

  /** The dict holds exactly the keys of the pairs. */
  lemma {:induction false} LastValuesKeys(pairs: seq<KeyValue>)
    ensures forall k :: k in LastValues(pairs) <==> exists i :: 0 <= i < |pairs| && pairs[i].key == k
    decreases |pairs|
  {
    if pairs != [] {
      var init := pairs[..|pairs| - 1];
      var last := pairs[|pairs| - 1];
      LastValuesKeys(init);
      var m := LastValues(init);
      var r := LastValues(pairs);
      forall k
        ensures k in r <==> exists i :: 0 <= i < |pairs| && pairs[i].key == k
      {
        if k in m && k != last.key {
          var i :| 0 <= i < |init| && init[i].key == k;
          assert pairs[i].key == k;
        }
        if exists i :: 0 <= i < |pairs| && pairs[i].key == k {
          var i :| 0 <= i < |pairs| && pairs[i].key == k;
          if i < |init| {
            assert init[i].key == k;
          }
        }
      }
    }
  }

  /** A key has the value of the last pair that has it. */
  lemma {:induction false} LastValuesValue(pairs: seq<KeyValue>, i: nat)
    requires i < |pairs| && forall j :: i < j < |pairs| ==> pairs[j].key != pairs[i].key
    ensures pairs[i].key in LastValues(pairs) && LastValues(pairs)[pairs[i].key] == pairs[i].value
    decreases |pairs|
  {
    var init := pairs[..|pairs| - 1];
    if i < |init| {
      assert pairs[|pairs| - 1].key != pairs[i].key;
      assert init[i] == pairs[i];
      forall j | i < j < |init|
        ensures init[j].key != init[i].key
      {
        assert init[j] == pairs[j];
      }
      LastValuesValue(init, i);
    }
  }

  /**
   * read_statistics: the key of every row mapped to its value, the last row
   * winning when a key repeats.
   */
  method ReadStatistics(rows: seq<StatRow>) returns (results: map<string, int>)
    ensures results == LastValues(Pairs(rows, StatPair))
  {
    results := map[];
    for i := 0 to |rows|
      invariant results == LastValues(Pairs(rows[..i], StatPair))
    {
      assert rows[..i + 1][..i] == rows[..i];
      assert Pairs(rows[..i + 1], StatPair)[..i] == Pairs(rows[..i], StatPair);
      results := results[rows[i].key := rows[i].value];
    }
    assert rows[..|rows|] == rows;
  }

  /** The statistics result has a key for every row, and the value of the last row with that key. */
  lemma StatisticsResult(rows: seq<StatRow>)
    ensures forall k :: k in LastValues(Pairs(rows, StatPair)) <==> exists i :: 0 <= i < |rows| && rows[i].key == k
    ensures forall i :: 0 <= i < |rows| && (forall j :: i < j < |rows| ==> rows[j].key != rows[i].key) ==>
      LastValues(Pairs(rows, StatPair))[rows[i].key] == rows[i].value
  {
    var pairs := Pairs(rows, StatPair);
    LastValuesKeys(pairs);
    assert forall i :: 0 <= i < |rows| ==> pairs[i].key == rows[i].key;
    forall i | 0 <= i < |rows| && (forall j :: i < j < |rows| ==> rows[j].key != rows[i].key)
      ensures LastValues(pairs)[rows[i].key] == rows[i].value
    {
      LastValuesValue(pairs, i);
    }
  }

  // ---------------------------------------------------------------------
  // Statistics history

  /** The text and the parameters of the history query. */
  datatype HistoryQuery = HistoryQuery(limitClause: string, args: seq<int>)

  /** The limit clause and its parameter are there only for a truthy limit (a number other than 0). */
  function HistoryFetch(limit: Option<int>): (r: HistoryQuery)
    ensures limit.Some? && limit.value != 0 ==> r == HistoryQuery(" LIMIT $1", [limit.value])
    ensures !(limit.Some? && limit.value != 0) ==> r.args == [] && !Contains(r.limitClause, "LIMIT")
  {
    if limit.Some? && limit.value != 0 then HistoryQuery(" LIMIT $1", [limit.value])
    else
      assert !MatchesAt(" ", "LIMIT", 0);
      ContainsIffMatch(" ", "LIMIT");
      HistoryQuery(" ", [])
  }

  /** The number of leading rows recorded at ts. */
  function RunLength(rows: seq<HistoryRow>, ts: string): (n: nat)
    ensures n <= |rows|
    ensures forall j :: 0 <= j < n ==> rows[j].historyTs == ts
    ensures n < |rows| ==> rows[n].historyTs != ts
  {
    if rows == [] || rows[0].historyTs != ts then 0 else 1 + RunLength(rows[1..], ts)
  }

  /** The rows of one run share their history_ts. */
  predicate Uniform(run: seq<HistoryRow>)
  {
    forall j :: 0 <= j < |run| ==> run[j].historyTs == run[0].historyTs
  }

  function Flatten<T>(xss: seq<seq<T>>): (r: seq<T>)
  {
    if xss == [] then [] else xss[0] + Flatten(xss[1..])
  }

  /**
   * The maximal runs of consecutive rows sharing history_ts: together they
   * are the rows in order, none is empty, and neighbours differ in time.
   */
  function Runs(rows: seq<HistoryRow>): (r: seq<seq<HistoryRow>>)
    ensures forall k :: 0 <= k < |r| ==> r[k] != []
    ensures rows == [] <==> r == []
    decreases |rows|
  {
    if rows == [] then []
    else
      var n := RunLength(rows, rows[0].historyTs);
      [rows[..n]] + Runs(rows[n..])
  }

  /** Together the runs are the rows, in order. */
  lemma {:induction false} RunsFlatten(rows: seq<HistoryRow>)
    ensures Flatten(Runs(rows)) == rows
    decreases |rows|
  {
    if rows != [] {
      var n := RunLength(rows, rows[0].historyTs);
      UnfoldRuns(rows);
      RunsFlatten(rows[n..]);
      FlattenCons(rows[..n], Runs(rows[n..]));
      SplitJoin(rows, n);
    }
  }

  lemma SplitJoin<T>(s: seq<T>, n: nat)
    requires n <= |s|
    ensures s[..n] + s[n..] == s
  {
  }

  lemma FlattenCons<T>(a: seq<T>, rest: seq<seq<T>>)
    ensures Flatten([a] + rest) == a + Flatten(rest)
  {
    assert ([a] + rest)[1..] == rest;
  }

  /** The first run starts with the first row. */
  lemma RunsHead(rows: seq<HistoryRow>)
    requires rows != []
    ensures Runs(rows)[0] != [] && Runs(rows)[0][0] == rows[0]
  {
    UnfoldRuns(rows);
  }

  /**
   * The runs are maximal: the rows of a run share their time, and
   * neighbouring runs differ in time.
   */
  lemma {:induction false} RunsShape(rows: seq<HistoryRow>)
    ensures forall k :: 0 <= k < |Runs(rows)| ==> Uniform(Runs(rows)[k])
    ensures forall k :: 0 <= k < |Runs(rows)| - 1 ==> Runs(rows)[k][0].historyTs != Runs(rows)[k + 1][0].historyTs
    decreases |rows|
  {
    if rows != [] {
      var n := RunLength(rows, rows[0].historyTs);
      UnfoldRuns(rows);
      RunsShape(rows[n..]);
      var rest: seq<seq<HistoryRow>> := Runs(rows[n..]);
      var r: seq<seq<HistoryRow>> := Runs(rows);
      if n < |rows| {
        RunsHead(rows[n..]);
      }
      forall k | 0 <= k < |r| - 1
        ensures r[k][0].historyTs != r[k + 1][0].historyTs
      {
        assert r[k + 1] == rest[k];
        if k > 0 {
          assert r[k] == rest[k - 1];
        }
      }
      forall k | 0 <= k < |r|
        ensures Uniform(r[k])
      {
        if k > 0 {
          assert r[k] == rest[k - 1];
        }
      }
    }
  }

  /** The entry of one run: its time and the dict its rows build. */
  function Entry(run: seq<HistoryRow>): (e: HistoryEntry)
    requires run != []
  {
    HistoryEntry(Some(run[0].historyTs), LastValues(Pairs(run, HistoryPair)))
  }

  /** A row recorded at the time of the last row joins the last run; any other row starts a run of its own. */
  lemma {:induction false} RunsSnoc(rows: seq<HistoryRow>, row: HistoryRow)
    ensures rows != [] && rows[|rows| - 1].historyTs == row.historyTs ==>
      var runs := Runs(rows);
      Runs(rows + [row]) == runs[..|runs| - 1] + [runs[|runs| - 1] + [row]]
    ensures !(rows != [] && rows[|rows| - 1].historyTs == row.historyTs) ==>
      Runs(rows + [row]) == Runs(rows) + [[row]]
    decreases |rows|
  {
    if rows == [] {
      RunsSingle(row);
      assert rows + [row] == [row];
      assert Runs(rows) == [];
    } else {
      var n := RunLength(rows, rows[0].historyTs);
      if n < |rows| {
        RunsSnocSplit(rows, row);
        UnfoldRuns(rows);
        RunsSnoc(rows[n..], row);
        var rest := Runs(rows[n..]);
        ConsSnoc(rows[..n], rest, [row]);
        var tail := rows[n..];
        assert tail != [] && tail[|tail| - 1] == rows[|rows| - 1];
        assert Runs(rows + [row]) == [rows[..n]] + Runs(tail + [row]);
        assert Runs(rows) == [rows[..n]] + rest;
        if rows[|rows| - 1].historyTs == row.historyTs {
          ConsSnoc(rows[..n], rest, rest[|rest| - 1] + [row]);
          assert Runs(tail + [row]) == rest[..|rest| - 1] + [rest[|rest| - 1] + [row]];
        } else {
          assert Runs(tail + [row]) == rest + [[row]];
        }
      } else {
        RunsSnocWhole(rows, row);
      }
    }
  }

  /** Sequence identities for a run list with one run in front. */
  lemma ConsSnoc<T>(a: T, rest: seq<T>, b: T)
    requires rest != []
    ensures [a] + (rest + [b]) == ([a] + rest) + [b]
    ensures [a] + (rest[..|rest| - 1] + [b]) == ([a] + rest)[..|rest|] + [b]
    ensures ([a] + rest)[..|rest|] == [a] + rest[..|rest| - 1]
    ensures ([a] + rest)[|rest|] == rest[|rest| - 1]
    ensures |[a] + rest| - 1 == |rest|
  {
  }

  lemma RunsSingle(row: HistoryRow)
    ensures Runs([row]) == [[row]]
  {
    var r := [row];
    assert RunLength(r, row.historyTs) == 1 by {
      assert r[1..] == [];
    }
    assert r[..1] == r;
    assert Runs(r[1..]) == [];
  }

  /** A row after the first run leaves that run alone. */
  lemma RunsSnocSplit(rows: seq<HistoryRow>, row: HistoryRow)
    requires rows != [] && RunLength(rows, rows[0].historyTs) < |rows|
    ensures var n := RunLength(rows, rows[0].historyTs);
      Runs(rows + [row]) == [rows[..n]] + Runs(rows[n..] + [row])
  {
    var ts := rows[0].historyTs;
    var n := RunLength(rows, ts);
    RunLengthSnoc(rows, row, ts);
    SliceSnoc(rows, row, n);
    UnfoldRuns(rows + [row]);
  }

  /** Slices of rows with one more row. */
  lemma SliceSnoc(rows: seq<HistoryRow>, row: HistoryRow, n: nat)
    requires n < |rows|
    ensures (rows + [row])[0] == rows[0]
    ensures (rows + [row])[..n] == rows[..n] && (rows + [row])[n..] == rows[n..] + [row]
  {
  }

  /** Runs unfolded once. */
  lemma UnfoldRuns(s: seq<HistoryRow>)
    requires s != []
    ensures Runs(s) == [s[..RunLength(s, s[0].historyTs)]] + Runs(s[RunLength(s, s[0].historyTs)..])
  {
  }

  /** A row after rows that all share one time joins them or starts the second run. */
  lemma RunsSnocWhole(rows: seq<HistoryRow>, row: HistoryRow)
    requires rows != [] && RunLength(rows, rows[0].historyTs) == |rows|
    ensures Runs(rows) == [rows]
    ensures rows[|rows| - 1].historyTs == row.historyTs ==> Runs(rows + [row]) == [rows + [row]]
    ensures rows[|rows| - 1].historyTs != row.historyTs ==> Runs(rows + [row]) == [rows, [row]]
  {
    var ts := rows[0].historyTs;
    RunLengthSnoc(rows, row, ts);
    SliceWhole(rows, row);
    UnfoldRuns(rows);
    UnfoldRuns(rows + [row]);
    RunsSingle(row);
  }

  /** Slices of rows with one more row, at the ends. */
  lemma SliceWhole(rows: seq<HistoryRow>, row: HistoryRow)
    requires rows != []
    ensures (rows + [row])[0] == rows[0]
    ensures rows[..|rows|] == rows && rows[|rows|..] == []
    ensures (rows + [row])[..|rows| + 1] == rows + [row] && (rows + [row])[|rows| + 1..] == []
    ensures (rows + [row])[..|rows|] == rows && (rows + [row])[|rows|..] == [row]
  {
  }

  /** Appending a row leaves a run length short of the end alone, and extends a full one by a matching row. */
  lemma {:induction false} RunLengthSnoc(rows: seq<HistoryRow>, row: HistoryRow, ts: string)
    ensures RunLength(rows, ts) < |rows| ==> RunLength(rows + [row], ts) == RunLength(rows, ts)
    ensures RunLength(rows, ts) == |rows| ==>
      RunLength(rows + [row], ts) == |rows| + (if row.historyTs == ts then 1 else 0)
    decreases |rows|
  {
    var s := rows + [row];
    if rows != [] && rows[0].historyTs == ts {
      assert s[1..] == rows[1..] + [row];
      RunLengthSnoc(rows[1..], row, ts);
    } else if rows == [] {
      if row.historyTs == ts {
        assert s[1..] == [];
      }
    }
  }

  /**
   * read_statistics_history: walks the rows keeping the time of the current
   * run, its dict and whether a row has been seen; a row at a new time
   * closes the current run's entry and starts an empty dict; the last run's
   * entry is appended after the loop, even when there were no rows. The
   * result is one entry per run, and a single {None: {}} without rows.
   */
  method ReadStatisticsHistory(rows: seq<HistoryRow>) returns (results: seq<HistoryEntry>)
    ensures rows == [] ==> results == [HistoryEntry(None, map[])]
    ensures rows != [] ==> |results| == |Runs(rows)| && forall k :: 0 <= k < |results| ==> results[k] == Entry(Runs(rows)[k])
  {
    results := [];
    var firstTime := true;
    var tempHistoryTs: Option<string> := None;
    var tempDict: map<string, int> := map[];
    for i := 0 to |rows|
      invariant firstTime <==> i == 0
      invariant i == 0 ==> results == [] && tempHistoryTs.None? && tempDict == map[]
      invariant i > 0 ==> Closed(results, Runs(rows[..i]), tempHistoryTs, tempDict)
    {
      var row := rows[i];
      assert rows[..i + 1] == rows[..i] + [row];
      if tempHistoryTs != Some(row.historyTs) {
        if !firstTime {
          NewRun(results, rows[..i], tempHistoryTs, tempDict, row);
          results := results + [HistoryEntry(tempHistoryTs, tempDict)];
        } else {
          FirstRun(row);
          assert rows[..i] == [];
        }
        tempDict := map[];
        tempHistoryTs := Some(row.historyTs);
      } else {
        SameRun(results, rows[..i], tempHistoryTs, tempDict, row);
      }
      tempDict := tempDict[row.key := row.value];
      firstTime := false;
    }
    if |rows| > 0 {
      assert rows[..|rows|] == rows;
      CloseRun(results, Runs(rows), tempHistoryTs, tempDict);
    }
    results := results + [HistoryEntry(tempHistoryTs, tempDict)];
  }

  /** The first row starts the first run. */
  lemma FirstRun(row: HistoryRow)
    ensures Closed([], Runs([] + [row]), Some(row.historyTs), map[][row.key := row.value])
  {
    RunsSnoc([], row);
    assert Runs([]) == [];
    StartRun([], [], row);
  }

  /** The last run is at the time of the last row. */
  lemma {:induction false} LastRunTime(rows: seq<HistoryRow>)
    requires rows != []
    ensures var runs := Runs(rows);
      runs[|runs| - 1][0].historyTs == rows[|rows| - 1].historyTs
    decreases |rows|
  {
    var n := RunLength(rows, rows[0].historyTs);
    UnfoldRuns(rows);
    if n < |rows| {
      LastRunTime(rows[n..]);
    } else {
      assert Runs(rows[n..]) == [];
    }
  }

  /** A row at a new time closes the current run and starts the next. */
  lemma NewRun(results: seq<HistoryEntry>, before: seq<HistoryRow>, ts: Option<string>, dict: map<string, int>, row: HistoryRow)
    requires before != [] && ts != Some(row.historyTs)
    requires Closed(results, Runs(before), ts, dict)
    ensures Closed(results + [HistoryEntry(ts, dict)], Runs(before + [row]), Some(row.historyTs), map[][row.key := row.value])
  {
    LastRunTime(before);
    RunsSnoc(before, row);
    CloseRun(results, Runs(before), ts, dict);
    StartRun(results + [HistoryEntry(ts, dict)], Runs(before), row);
  }

  /** A row at the current time joins the current run. */
  lemma SameRun(results: seq<HistoryEntry>, before: seq<HistoryRow>, ts: Option<string>, dict: map<string, int>, row: HistoryRow)
    requires before != [] && ts == Some(row.historyTs)
    requires Closed(results, Runs(before), ts, dict)
    ensures Closed(results, Runs(before + [row]), ts, dict[row.key := row.value])
  {
    LastRunTime(before);
    RunsSnoc(before, row);
    ExtendRun(results, Runs(before), ts, dict, row);
  }

  /**
   * The loop's state against the runs so far: an entry for every run but
   * the last, and the dict of the last run.
   */
  ghost predicate Closed(results: seq<HistoryEntry>, runs: seq<seq<HistoryRow>>, ts: Option<string>, dict: map<string, int>)
  {
    |runs| >= 1 && |results| == |runs| - 1 &&
    (forall k :: 0 <= k < |results| ==> runs[k] != [] && results[k] == Entry(runs[k])) &&
    runs[|runs| - 1] != [] &&
    ts == Some(runs[|runs| - 1][0].historyTs) &&
    dict == LastValues(Pairs(runs[|runs| - 1], HistoryPair))
  }

  /** Closing the last run gives an entry for every run. */
  lemma CloseRun(results: seq<HistoryEntry>, runs: seq<seq<HistoryRow>>, ts: Option<string>, dict: map<string, int>)
    requires Closed(results, runs, ts, dict)
    ensures var r := results + [HistoryEntry(ts, dict)];
      |r| == |runs| && forall k :: 0 <= k < |r| ==> r[k] == Entry(runs[k])
  {
  }

  /** A row at a new time starts a run whose dict begins empty. */
  lemma StartRun(results: seq<HistoryEntry>, runs: seq<seq<HistoryRow>>, row: HistoryRow)
    requires |results| == |runs| && forall k :: 0 <= k < |runs| ==> runs[k] != [] && results[k] == Entry(runs[k])
    ensures Closed(results, runs + [[row]], Some(row.historyTs), map[][row.key := row.value])
  {
    var after := runs + [[row]];
    assert after[|after| - 1] == [row];
    assert Pairs([row], HistoryPair) == [KeyValue(row.key, row.value)];
    assert Pairs([row], HistoryPair)[..0] == [];
    forall k | 0 <= k < |results|
      ensures after[k] == runs[k]
    {
    }
  }

  /** A row at the current time joins the last run, and updates its dict. */
  lemma ExtendRun(results: seq<HistoryEntry>, runs: seq<seq<HistoryRow>>, ts: Option<string>, dict: map<string, int>, row: HistoryRow)
    requires Closed(results, runs, ts, dict)
    ensures var last := runs[|runs| - 1];
      Closed(results, runs[..|runs| - 1] + [last + [row]], ts, dict[row.key := row.value])
  {
    var last := runs[|runs| - 1];
    var after := runs[..|runs| - 1] + [last + [row]];
    assert after[|after| - 1] == last + [row];
    assert (last + [row])[..|last|] == last;
    assert Pairs(last + [row], HistoryPair)[..|last|] == Pairs(last, HistoryPair);
    forall k | 0 <= k < |results|
      ensures after[k] == runs[k]
    {
    }
  }

  /**
   * Every entry of a run is at the run's time and holds exactly the keys of
   * its rows, each with the value of the last row that has it; neighbouring
   * entries differ in time.
   */
  lemma RunEntries(rows: seq<HistoryRow>)
    ensures var runs := Runs(rows);
      forall k :: 0 <= k < |runs| ==>
        Entry(runs[k]).historyTs == Some(runs[k][0].historyTs) &&
        forall key :: key in Entry(runs[k]).values <==> exists j :: 0 <= j < |runs[k]| && runs[k][j].key == key
    ensures var runs := Runs(rows);
      forall k :: 0 <= k < |runs| - 1 ==> Entry(runs[k]).historyTs != Entry(runs[k + 1]).historyTs
    ensures var runs := Runs(rows);
      forall k, j :: 0 <= k < |runs| && 0 <= j < |runs[k]| && (forall j' :: j < j' < |runs[k]| ==> runs[k][j'].key != runs[k][j].key) ==>
        Entry(runs[k]).values[runs[k][j].key] == runs[k][j].value
  {
    RunsShape(rows);
    var runs := Runs(rows);
    forall k | 0 <= k < |runs|
      ensures forall key :: key in Entry(runs[k]).values <==> exists j :: 0 <= j < |runs[k]| && runs[k][j].key == key
      ensures forall j :: 0 <= j < |runs[k]| && (forall j' :: j < j' < |runs[k]| ==> runs[k][j'].key != runs[k][j].key) ==>
        Entry(runs[k]).values[runs[k][j].key] == runs[k][j].value
    {
      var pairs := Pairs(runs[k], HistoryPair);
      LastValuesKeys(pairs);
      assert forall j :: 0 <= j < |runs[k]| ==> pairs[j].key == runs[k][j].key;
      forall j | 0 <= j < |runs[k]| && (forall j' :: j < j' < |runs[k]| ==> runs[k][j'].key != runs[k][j].key)
        ensures Entry(runs[k]).values[runs[k][j].key] == runs[k][j].value
      {
        LastValuesValue(pairs, j);
      }
    }
  }
}
