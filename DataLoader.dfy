/** `TicketDataLoader` (support_ai/data_loader.py) over an abstract table: a
    list of column names and one list of cells per column.  Loading strips the
    column names, looks for a resolution-date column under five spellings
    (adding one when none is present), and adds each missing required column
    filled with its default. */
module DataLoader {
  import opened Common
  import opened Text

  /** A data frame: column `c` is named `names[c]` and holds `cols[c]`, one
      cell per row. */
  datatype Table = Table(names: seq<string>, cols: seq<seq<Value>>, height: nat)
  {
    predicate Valid()
    {
      |cols| == |names|
      && (forall c :: 0 <= c < |cols| ==> |cols[c]| == height)
      && (forall c, d :: 0 <= c < d < |names| ==> names[c] != names[d])
    }

    /** The cells of the column named `name`, when there is one. */
    function Column(name: string): (r: Option<seq<Value>>)
      requires Valid()
      ensures r.Some? <==> name in names
      ensures r.Some? ==> |r.value| == height
      ensures forall c :: 0 <= c < |names| && names[c] == name ==> r == Some(cols[c])
    {
      ColumnAt(names, cols, height, name)
    }

    /** `df[name] = value` for a column not yet present. */
    function AddColumn(name: string, value: Value): (t: Table)
      requires Valid() && name !in names
      ensures t.Valid() && t.height == height && t.names == names + [name]
      ensures t.Column(name) == Some(Filled(height, value))
      ensures forall n :: n in names ==> t.Column(n) == Column(n)
    {
      var t := Table(names + [name], cols + [Filled(height, value)], height);
      assert forall n :: n in names ==> n != name;
      t
    }
  }

  /** A column holding `v` on each of `n` rows, as `df[name] = v` creates it. */
  function Filled(n: nat, v: Value): (r: seq<Value>)
    ensures |r| == n && forall k :: 0 <= k < n ==> r[k] == v
  {
    seq(n, _ => v)
  }

  function ColumnAt(names: seq<string>, cols: seq<seq<Value>>, height: nat, name: string): (r: Option<seq<Value>>)
    requires |cols| == |names| && forall c :: 0 <= c < |cols| ==> |cols[c]| == height
    requires forall c, d :: 0 <= c < d < |names| ==> names[c] != names[d]
    ensures r.Some? <==> name in names
    ensures r.Some? ==> |r.value| == height
    ensures forall c :: 0 <= c < |names| && names[c] == name ==> r == Some(cols[c])
  {
    if |names| == 0 then None
    else if names[0] == name then Some(cols[0])
    else ColumnAt(names[1..], cols[1..], height, name)
  }

  /** The spellings of the resolution-date column, in the order tried. */
  const DateVariants: seq<string> :=
    ["Date of Resolution", "Resolution Date", "Date_of_Resolution", "resolution_date", "date_resolved"]

  /** The required columns and their defaults, in the order they are added. */
  const RequiredColumns: seq<(string, Value)> :=
    [("Issue Category", Str("Unknown Issue")),
     ("Sentiment", Str("Neutral")),
     ("Priority", Str("Medium")),
     ("Solution", Str("No solution provided")),
     ("Resolution Status", Str("Pending")),
     ("Resolution Time", Num(24.0))]

  /** The column names of a list of (name, default) pairs, in order. */
  function Names(req: seq<(string, Value)>): (r: seq<string>)
    ensures |r| == |req| && forall k :: 0 <= k < |r| ==> r[k] == req[k].0
  {
    seq(|req|, k requires 0 <= k < |req| => req[k].0)
  }

  function RequiredNames(): (r: seq<string>)
    ensures |r| == |RequiredColumns| && forall k :: 0 <= k < |r| ==> r[k] == RequiredColumns[k].0
  {
    Names(RequiredColumns)
  }

  /** `df.columns.str.strip()`. */
  function StripNames(names: seq<string>): (r: seq<string>)
    ensures |r| == |names| && forall k :: 0 <= k < |r| ==> r[k] == Strip(names[k])
  {
    seq(|names|, k requires 0 <= k < |names| => Strip(names[k]))
  }

  /** The first of `variants` that is among `names`. */
  predicate IsFirstPresent(variants: seq<string>, names: seq<string>, found: Option<string>)
  {
    match found
    case None => forall v :: v in variants ==> v !in names
    case Some(d) => exists i :: 0 <= i < |variants| && variants[i] == d && d in names
                      && forall j :: 0 <= j < i ==> variants[j] !in names
  }

  /** The loop over the date-column variants, stopping at the first one
      present. */
  method FindDateColumn(names: seq<string>) returns (date: Option<string>)
    ensures IsFirstPresent(DateVariants, names, date)
  {
    date := None;
    var i := 0;
    while i < |DateVariants|
      invariant 0 <= i <= |DateVariants|
      invariant forall j :: 0 <= j < i ==> DateVariants[j] !in names
    {
      if DateVariants[i] in names {
        date := Some(DateVariants[i]);
        break;
      }
      i := i + 1;
    }
    if date.None? {
      forall v | v in DateVariants ensures v !in names {
        var j :| 0 <= j < |DateVariants| && DateVariants[j] == v;
      }
    }
  }

  /** Columns `req` added in turn, each only when missing. */
  function WithDefaults(t: Table, req: seq<(string, Value)>): (r: Table)
    requires t.Valid()
    ensures r.Valid() && r.height == t.height && |t.names| <= |r.names|
    ensures r.names[..|t.names|] == t.names
    ensures r.names == NamesAfter(t.names, req)
    decreases |req|
  {
    if |req| == 0 then t
    else
      var s := WithDefaults(t, req[..|req| - 1]);
      var (name, value) := req[|req| - 1];
      if name in s.names then s
      else
        var r := s.AddColumn(name, value);
        assert r.names[..|t.names|] == s.names[..|t.names|];
        r
  }

  /** One more column of `req`: added when missing, otherwise nothing. */
  lemma WithDefaultsStep(t: Table, req: seq<(string, Value)>, i: nat)
    requires t.Valid() && i < |req|
    ensures var s := WithDefaults(t, req[..i]);
      WithDefaults(t, req[..i + 1]) == if req[i].0 in s.names then s else s.AddColumn(req[i].0, req[i].1)
  {
    assert req[..i + 1][..i] == req[..i];
  }

  predicate DistinctNames(req: seq<(string, Value)>)
  {
    forall i, j :: 0 <= i < j < |req| ==> req[i].0 != req[j].0
  }

  /** No two required columns share a name. */
  lemma RequiredNamesDistinct()
    ensures DistinctNames(RequiredColumns)
  {
    assert RequiredNames() == ["Issue Category", "Sentiment", "Priority", "Solution",
                               "Resolution Status", "Resolution Time"];
  }

  /** A column that was already there is untouched. */
  lemma {:induction false} WithDefaultsKeeps(t: Table, req: seq<(string, Value)>)
    requires t.Valid()
    ensures forall n :: n in t.names ==> WithDefaults(t, req).Column(n) == t.Column(n)
    decreases |req|
  {
    if |req| > 0 {
      WithDefaultsKeeps(t, req[..|req| - 1]);
      var s := WithDefaults(t, req[..|req| - 1]);
      forall n | n in t.names ensures n in s.names {
        var c :| 0 <= c < |t.names| && t.names[c] == n;
        assert s.names[c] == n;
      }
    }
  }

  /** The column names after adding each column of `req` that is missing. */
  function NamesAfter(names: seq<string>, req: seq<(string, Value)>): seq<string>
    decreases |req|
  {
    if |req| == 0 then names
    else
      var s := NamesAfter(names, req[..|req| - 1]);
      if req[|req| - 1].0 in s then s else s + [req[|req| - 1].0]
  }

  lemma {:induction false} NamesAfterHasAll(names: seq<string>, req: seq<(string, Value)>)
    ensures forall j :: 0 <= j < |req| ==> req[j].0 in NamesAfter(names, req)
    decreases |req|
  {
    if |req| > 0 {
      var front := req[..|req| - 1];
      NamesAfterHasAll(names, front);
      var s := NamesAfter(names, front);
      assert forall n :: n in s ==> n in NamesAfter(names, req);
      forall j | 0 <= j < |req| - 1 ensures req[j].0 in NamesAfter(names, req) {
        assert front[j] == req[j];
      }
    }
  }

  lemma {:induction false} NamesAfterKeeps(names: seq<string>, req: seq<(string, Value)>)
    ensures forall n :: n in names ==> n in NamesAfter(names, req)
    decreases |req|
  {
    if |req| > 0 {
      NamesAfterKeeps(names, req[..|req| - 1]);
    }
  }

  lemma {:induction false} NamesAfterHasOnly(names: seq<string>, req: seq<(string, Value)>)
    ensures forall n :: n in NamesAfter(names, req) ==> n in names || n in Names(req)
    decreases |req|
  {
    if |req| > 0 {
      var front := req[..|req| - 1];
      NamesAfterHasOnly(names, front);
      var s := NamesAfter(names, front);
      forall n | n in NamesAfter(names, req) && n !in names ensures n in Names(req) {
        if n in s {
          var k :| 0 <= k < |front| && Names(front)[k] == n;
          assert Names(req)[k] == n;
        } else {
          assert Names(req)[|req| - 1] == n;
        }
      }
    }
  }

  /** Every column of `req` exists afterwards, every column that was there
      stays, and every column is either one that was already there or one of
      `req`. */
  lemma WithDefaultsNames(t: Table, req: seq<(string, Value)>)
    requires t.Valid()
    ensures forall j :: 0 <= j < |req| ==> req[j].0 in WithDefaults(t, req).names
    ensures forall n :: n in WithDefaults(t, req).names ==> n in t.names || n in Names(req)
    ensures forall n :: n in t.names ==> n in WithDefaults(t, req).names
  {
    NamesAfterHasAll(t.names, req);
    NamesAfterHasOnly(t.names, req);
    NamesAfterKeeps(t.names, req);
  }

  /** A column of `req` that was missing holds its default on every row. */
  lemma {:induction false} WithDefaultsFills(t: Table, req: seq<(string, Value)>)
    requires t.Valid() && DistinctNames(req)
    ensures forall j :: 0 <= j < |req| && req[j].0 !in t.names ==>
              WithDefaults(t, req).Column(req[j].0) == Some(Filled(t.height, req[j].1))
    decreases |req|
  {
    if |req| > 0 {
      var front := req[..|req| - 1];
      assert DistinctNames(front);
      WithDefaultsFills(t, front);
      WithDefaultsNames(t, front);
      var s := WithDefaults(t, front);
      var name := req[|req| - 1].0;
      forall j | 0 <= j < |front| ensures front[j].0 != name {
        assert front[j] == req[j];
      }
      forall j | 0 <= j < |req| && req[j].0 !in t.names
        ensures WithDefaults(t, req).Column(req[j].0) == Some(Filled(t.height, req[j].1))
      {
        if j < |req| - 1 {
          assert front[j] == req[j];
          assert req[j].0 in s.names;
        }
      }
    }
  }

  /** The fallback frame: the required columns and one row of defaults. */
  function FallbackTable(): (t: Table)
    ensures t.Valid() && t.height == 1 && t.names == RequiredNames()
  {
    var names := RequiredNames();
    assert names == ["Issue Category", "Sentiment", "Priority", "Solution",
                     "Resolution Status", "Resolution Time"];
    Table(names, seq(|RequiredColumns|, k requires 0 <= k < |RequiredColumns| => [RequiredColumns[k].1]), 1)
  }

  /** The dictionary `get_training_data` returns, one field per key:
      `issues`, `sentiments`, `priorities`, `solutions`, `resolution_times`
      and `statuses`. */
  datatype TrainingData = TrainingData(issues: seq<Value>, sentiments: seq<Value>, priorities: seq<Value>,
                                       solutions: seq<Value>, resolutionTimes: seq<Value>, statuses: seq<Value>)

  predicate HasTrainingColumns(t: Table)
  {
    && "Issue Category" in t.names && "Sentiment" in t.names && "Priority" in t.names
    && "Solution" in t.names && "Resolution Time" in t.names && "Resolution Status" in t.names
  }

  /** `df.head(limit)`: the first `limit` rows, or all but the last `-limit`
      rows when `limit` is negative. */
  function HeadCount(n: nat, limit: int): (m: nat)
    ensures m <= n
    ensures limit >= 0 ==> m == if limit < n then limit else n
    ensures limit < 0 ==> m == if n + limit > 0 then n + limit else 0
  {
    if limit >= 0 then (if limit < n then limit else n)
    else if n + limit > 0 then n + limit else 0
  }

  /** The rows, in table order, whose cell in `column` equals `v`. */
  function RowsWhere(column: seq<Value>, v: Value, from: nat): (rows: seq<nat>)
    requires from <= |column|
    ensures forall k :: 0 <= k < |rows| ==> from <= rows[k] < |column| && column[rows[k]] == v
    ensures forall k, l :: 0 <= k < l < |rows| ==> rows[k] < rows[l]
    ensures forall i :: from <= i < |column| && column[i] == v ==> i in rows
    decreases |column| - from
  {
    if from == |column| then []
    else
      var rest := RowsWhere(column, v, from + 1);
      if column[from] == v then [from] + rest else rest
  }

  /** Row `i` as the dictionary `to_dict('records')` gives for it. */
  function Record(t: Table, i: nat): (m: map<string, Value>)
    requires t.Valid() && i < t.height
    ensures m.Keys == set n | n in t.names
    ensures forall c :: 0 <= c < |t.names| ==> m[t.names[c]] == t.cols[c][i]
  {
    map c | 0 <= c < |t.names| :: t.names[c] := t.cols[c][i]
  }

  /** `to_dict(\x27records\x27)` on the rows `rows[..m]`: one record per row, in order. */
  function Records(t: Table, rows: seq<nat>, m: nat): (r: seq<map<string, Value>>)
    requires t.Valid() && m <= |rows| && forall k :: 0 <= k < |rows| ==> rows[k] < t.height
    ensures |r| == m && forall k :: 0 <= k < m ==> r[k] == Record(t, rows[k])
  {
    seq(m, k requires 0 <= k < m => Record(t, rows[k]))
  }

  /** Every row that `RowsWhere` picks out has `category` in its record's
      Issue Category. */
  lemma CategoryCells(t: Table, category: string)
    requires t.Valid() && "Issue Category" in t.names
    ensures var rows := RowsWhere(t.Column("Issue Category").value, Str(category), 0);
      forall k :: 0 <= k < |rows| ==>
        rows[k] < t.height && "Issue Category" in Record(t, rows[k])
        && Record(t, rows[k])["Issue Category"] == Str(category)
  {
    var column := t.Column("Issue Category").value;
    var rows := RowsWhere(column, Str(category), 0);
    var c :| 0 <= c < |t.names| && t.names[c] == "Issue Category";
    forall k | 0 <= k < |rows|
      ensures rows[k] < t.height && "Issue Category" in Record(t, rows[k])
      ensures Record(t, rows[k])["Issue Category"] == Str(category)
    {
      assert Record(t, rows[k])[t.names[c]] == t.cols[c][rows[k]];
    }
  }

  /** A frame `read_csv` returned whose column names stay distinct once
      stripped. */
  predicate Loadable(csv: Table)
  {
    csv.Valid() && forall c, d :: 0 <= c < d < |csv.names| ==> Strip(csv.names[c]) != Strip(csv.names[d])
  }

  class TicketDataLoader {
    var df: Table

    /** The frame after a successful load of `csv`: column names stripped,
        the date column found or added, and the required columns filled in.
        `now` stands for `pd.Timestamp.now()`. */
    static function Loaded(csv: Table, now: Value): (t: Table)
      requires Loadable(csv)
      ensures t.Valid()
    {
      WithDefaults(DatedFrame(csv, now), RequiredColumns)
    }

    /** `__init__` after `read_csv` has returned `csv`. */
    constructor (csv: Table, now: Value)
      requires Loadable(csv)
      ensures df == Loaded(csv, now)
    {
      var t := Table(StripNames(csv.names), csv.cols, csv.height);
      assert t.Valid();
      var date := FindDateColumn(t.names);
      if date.None? {
        t := t.AddColumn("Date of Resolution", now);
      } else {
        var i :| 0 <= i < |DateVariants| && DateVariants[i] == date.value && date.value in t.names;
      }
      assert t == DatedFrame(csv, now);
      df := t;
      new;
      AddMissingColumns(RequiredColumns);
    }

    /** The loop over `required_columns.items()`, adding each column that is
        missing with its default. */
    method AddMissingColumns(req: seq<(string, Value)>)
      requires df.Valid()
      modifies this
      ensures df == WithDefaults(old(df), req)
    {
      var i := 0;
      while i < |req|
        invariant 0 <= i <= |req|
        invariant df.Valid() && df == WithDefaults(old(df), req[..i])
      {
        var (col, default) := req[i];
        WithDefaultsStep(old(df), req, i);
        if col !in df.names {
          df := df.AddColumn(col, default);
        }
        i := i + 1;
      }
      assert req[..i] == req;
    }

    /** `get_training_data`: the six columns as lists, or six empty lists
        when a column is missing. */
    function GetTrainingData(): (r: TrainingData)
      requires df.Valid()
      reads this
      ensures var n := if HasTrainingColumns(df) then df.height else 0;
        && |r.issues| == n && |r.sentiments| == n && |r.priorities| == n
        && |r.solutions| == n && |r.resolutionTimes| == n && |r.statuses| == n
      ensures HasTrainingColumns(df) ==>
        && Some(r.issues) == df.Column("Issue Category")
        && Some(r.sentiments) == df.Column("Sentiment")
        && Some(r.priorities) == df.Column("Priority")
        && Some(r.solutions) == df.Column("Solution")
        && Some(r.resolutionTimes) == df.Column("Resolution Time")
        && Some(r.statuses) == df.Column("Resolution Status")
    {
      var t := df;
      if HasTrainingColumns(t) then
        TrainingData(t.Column("Issue Category").value, t.Column("Sentiment").value,
                     t.Column("Priority").value, t.Column("Solution").value,
                     t.Column("Resolution Time").value, t.Column("Resolution Status").value)
      else TrainingData([], [], [], [], [], [])
    }

    /** `get_similar_cases`: the first `limit` rows whose Issue Category is
        `category`, in table order; KeyError without that column. */
    function GetSimilarCases(category: string, limit: int): (r: Result<seq<map<string, Value>>>)
      requires df.Valid()
      reads this
      ensures r.Err? <==> "Issue Category" !in df.names
      ensures r.Err? ==> r.error == KeyError("Issue Category")
      ensures r.Ok? && limit >= 0 ==> |r.value| <= limit
      ensures r.Ok? ==> var rows := RowsWhere(df.Column("Issue Category").value, Str(category), 0);
        && |r.value| == HeadCount(|rows|, limit)
        && forall k :: 0 <= k < |r.value| ==> r.value[k] == Record(df, rows[k])
      ensures r.Ok? ==> forall k :: 0 <= k < |r.value| ==> r.value[k]["Issue Category"] == Str(category)
    {
      var t := df;
      match t.Column("Issue Category")
      case None => Err(KeyError("Issue Category"))
      case Some(column) =>
        var rows := RowsWhere(column, Str(category), 0);
        var m := HeadCount(|rows|, limit);
        CategoryCells(t, category);
        Ok(Records(t, rows, m))
    }
  }

  /** The frame after the date step of a load. */
  function DatedFrame(csv: Table, now: Value): (d: Table)
    requires Loadable(csv)
    ensures d.Valid() && d.height == csv.height
  {
    var s := Table(StripNames(csv.names), csv.cols, csv.height);
    if exists v :: v in DateVariants && v in s.names then s
    else s.AddColumn("Date of Resolution", now)
  }

  /** "Date of Resolution" is not a required column. */
  lemma DateColumnNotRequired()
    ensures forall j :: 0 <= j < |RequiredColumns| ==> RequiredColumns[j].0 != "Date of Resolution"
  {
    forall j | 0 <= j < |RequiredColumns| ensures RequiredColumns[j].0 != "Date of Resolution" {
      assert |RequiredColumns[j].0| != |"Date of Resolution"|;
    }
  }

  /** After the date step one of the date spellings is a column. */
  lemma DatedFrameHasDate(csv: Table, now: Value)
    requires Loadable(csv)
    ensures exists v :: v in DateVariants && v in DatedFrame(csv, now).names
  {
    var s := Table(StripNames(csv.names), csv.cols, csv.height);
    if !exists v :: v in DateVariants && v in s.names {
      assert DateVariants[0] in DatedFrame(csv, now).names;
    }
  }

  /** The date step keeps every column of the file under its stripped name. */
  lemma DatedFrameKeeps(csv: Table, now: Value)
    requires Loadable(csv)
    ensures forall c :: 0 <= c < |csv.names| ==> DatedFrame(csv, now).Column(Strip(csv.names[c])) == Some(csv.cols[c])
  {
    var s := Table(StripNames(csv.names), csv.cols, csv.height);
    forall c | 0 <= c < |csv.names| ensures DatedFrame(csv, now).Column(Strip(csv.names[c])) == Some(csv.cols[c]) {
      assert s.names[c] == Strip(csv.names[c]);
      assert s.Column(s.names[c]) == Some(csv.cols[c]);
    }
  }

  /** The date step adds no required column. */
  lemma DatedFrameRequired(csv: Table, now: Value)
    requires Loadable(csv)
    ensures forall j :: 0 <= j < |RequiredColumns| ==>
      (RequiredColumns[j].0 in DatedFrame(csv, now).names <==> RequiredColumns[j].0 in StripNames(csv.names))
  {
    DateColumnNotRequired();
  }

  /** A frame with every required column has the six training columns. */
  lemma RequiredGivesTraining(t: Table)
    requires forall j :: 0 <= j < |RequiredColumns| ==> RequiredColumns[j].0 in t.names
    ensures HasTrainingColumns(t)
  {
    assert RequiredColumns[0].0 in t.names && RequiredColumns[1].0 in t.names;
    assert RequiredColumns[2].0 in t.names && RequiredColumns[3].0 in t.names;
    assert RequiredColumns[4].0 in t.names && RequiredColumns[5].0 in t.names;
  }

  /** A loaded frame has every required column, hence the training columns,
      and a date column. */
  lemma LoadedColumns(csv: Table, now: Value)
    requires Loadable(csv)
    ensures var t := TicketDataLoader.Loaded(csv, now);
      && t.height == csv.height
      && (forall j :: 0 <= j < |RequiredColumns| ==> RequiredColumns[j].0 in t.names)
      && HasTrainingColumns(t)
      && (exists v :: v in DateVariants && v in t.names)
  {
    var d := DatedFrame(csv, now);
    var t := TicketDataLoader.Loaded(csv, now);
    WithDefaultsNames(d, RequiredColumns);
    RequiredGivesTraining(t);
    DatedFrameHasDate(csv, now);
    var v :| v in DateVariants && v in d.names;
    assert v in t.names;
  }

  /** Each column of the file is kept, under its stripped name, with its
      cells; each required column the file lacked holds its default on every
      row. */
  lemma LoadedCells(csv: Table, now: Value)
    requires Loadable(csv)
    ensures var t := TicketDataLoader.Loaded(csv, now);
      && (forall c :: 0 <= c < |csv.names| ==> t.Column(Strip(csv.names[c])) == Some(csv.cols[c]))
      && (forall j :: 0 <= j < |RequiredColumns| && RequiredColumns[j].0 !in StripNames(csv.names) ==>
            t.Column(RequiredColumns[j].0) == Some(Filled(csv.height, RequiredColumns[j].1)))
  {
    var d := DatedFrame(csv, now);
    DatedFrameKeeps(csv, now);
    DatedFrameRequired(csv, now);
    WithDefaultsKeeps(d, RequiredColumns);
    RequiredNamesDistinct();
    WithDefaultsFills(d, RequiredColumns);
    forall c | 0 <= c < |csv.names| ensures Strip(csv.names[c]) in d.names {
      assert d.Column(Strip(csv.names[c])).Some?;
    }
  }

  /** `__init__` as written: `required_columns` is bound at line 51, so when
      `read_csv` raises (`source` is `None`) the handler's use of it raises
      UnboundLocalError instead of building the fallback frame. */
  function InitAsWritten(source: Option<Table>, now: Value): (r: Result<Table>)
    requires source.Some? ==> Loadable(source.value)
    ensures r.Err? <==> source.None?
    ensures source.Some? ==> r == Ok(TicketDataLoader.Loaded(source.value, now))
  {
    match source
    case None => Err(UnboundLocalError("required_columns"))
    case Some(csv) => Ok(TicketDataLoader.Loaded(csv, now))
  }

  /** A missing or unreadable file makes the constructor raise. */
  lemma ReadFailureEscapes(now: Value)
    ensures InitAsWritten(None, now) == Err(UnboundLocalError("required_columns"))
  {
  }

  /** `__init__` as intended: any failure leaves the fallback frame. */
  function InitCorrected(source: Option<Table>, now: Value): (t: Table)
    requires source.Some? ==> Loadable(source.value)
    ensures source.None? ==> t == FallbackTable()
    ensures source.Some? ==> t == TicketDataLoader.Loaded(source.value, now)
  {
    match source
    case None => FallbackTable()
    case Some(csv) => TicketDataLoader.Loaded(csv, now)
  }

  /** With the correction the loader always ends with every required column
      and at least one row of training data or the file's rows. */
  lemma CorrectedAlwaysLoads(source: Option<Table>, now: Value)
    requires source.Some? ==> Loadable(source.value)
    ensures var t := InitCorrected(source, now);
      && t.Valid()
      && (forall j :: 0 <= j < |RequiredColumns| ==> RequiredColumns[j].0 in t.names)
      && HasTrainingColumns(t)
      && (source.None? ==> t.height == 1)
  {
    if source.Some? {
      LoadedColumns(source.value, now);
    } else {
      assert RequiredNames() == ["Issue Category", "Sentiment", "Priority", "Solution",
                                 "Resolution Status", "Resolution Time"];
    }
  }
}
