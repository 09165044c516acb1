/** Careful-Resume phase extraction of cr_trace_phases/cr_trace_phases_qlog2csv.py:
    every recovery/cr_phase event of a picoquic qlog becomes one row of a
    table; the file name is inserted as the first column and the numeric
    phase and trigger codes are rewritten in place to their names. */
module CrTracePhases {
  import opened Outcomes
  import opened Strings
  import opened Json

  // =====================================================================
  // Tables

  /** A row maps column names to cells; a column a row lacks is empty (NaN). */
  type Row = map<string, Value>

  /** A data frame: its columns in order and its rows. */
  datatype Table = Table(columns: seq<string>, rows: seq<Row>)

  ghost predicate Distinct(s: seq<string>)
  {
    forall i, j | 0 <= i < j < |s| :: s[i] != s[j]
  }

  /** No column twice, and no row has a cell outside the columns. */
  ghost predicate WellFormed(t: Table)
  {
    Distinct(t.columns) && forall i | 0 <= i < |t.rows| :: forall k | k in t.rows[i] :: k in t.columns
  }

  function Keys(values: seq<(string, Value)>): (ks: seq<string>)
    ensures |ks| == |values| && forall i | 0 <= i < |values| :: ks[i] == values[i].0
  {
    seq(|values|, i requires 0 <= i < |values| => values[i].0)
  }

  /** The one-row frame of a dict: a cell per member. */
  function RowOf(values: seq<(string, Value)>): (row: Row)
    ensures forall k :: k in row <==> k in Keys(values)
  {
    if values == [] then map[]
    else
      var init := values[..|values| - 1];
      assert Keys(values) == Keys(init) + [values[|values| - 1].0];
      RowOf(init)[values[|values| - 1].0 := values[|values| - 1].1]
  }

  /** The columns of `concat`: the old ones, then each new key in order of
      first appearance. */
  function MergeColumns(cols: seq<string>, keys: seq<string>): (r: seq<string>)
    ensures |cols| <= |r| && r[..|cols|] == cols
    ensures forall x :: x in r <==> x in cols || x in keys
    ensures Distinct(cols) ==> Distinct(r)
  {
    if keys == [] then cols
    else
      var c := MergeColumns(cols, keys[..|keys| - 1]);
      var k := keys[|keys| - 1];
      assert keys == keys[..|keys| - 1] + [k];
      if k in c then c else c + [k]
  }

  /** `pd.concat([df, DataFrame(values)])`: an empty dict adds nothing. */
  function AppendRow(t: Table, values: seq<(string, Value)>): Table
  {
    if values == [] then t
    else Table(MergeColumns(t.columns, Keys(values)), t.rows + [RowOf(values)])
  }

  lemma AppendRowWellFormed(t: Table, values: seq<(string, Value)>)
    requires WellFormed(t)
    ensures WellFormed(AppendRow(t, values))
  {
  }

  /** `df.insert(0, column, value)` on a frame without that column: every row
      gets the cell, and every cell it had is kept. */
  function SetColumn(rows: seq<Row>, column: string, value: Value): (r: seq<Row>)
    ensures |r| == |rows|
    ensures forall i | 0 <= i < |rows| :: r[i].Keys == rows[i].Keys + {column} && r[i][column] == value
    ensures forall i, k | 0 <= i < |rows| && k in rows[i] && k != column :: r[i][k] == rows[i][k]
  {
    seq(|rows|, i requires 0 <= i < |rows| => rows[i][column := value])
  }

  // =====================================================================
  // Code tables (picoquic/cc_common.h)

  /** Code and name pairs, applied one `replace` after another. */
  type CodeTable = seq<(Value, Value)>

  const PhaseCodes: CodeTable := [
    (Num(0.0), Str("Observe")), (Num(1.0), Str("Recon")), (Num(2.0), Str("Unval")),
    (Num(3.0), Str("Validate")), (Num(4.0), Str("Retreat")), (Num(100.0), Str("Normal"))]

  const TriggerCodes: CodeTable := [
    (Num(0.0), Str("packet_loss")), (Num(1.0), Str("cwnd_limited")), (Num(2.0), Str("cr_mark_ack")),
    (Num(3.0), Str("rtt_not_val")), (Num(4.0), Str("ECN_CE")), (Num(5.0), Str("exit_recovery"))]

  /** No name of the table is also a code of it, so replacements never chain. */
  ghost predicate NamesAreNotCodes(table: CodeTable)
  {
    forall i, j | 0 <= i < |table| && 0 <= j < |table| :: table[i].1 != table[j].0
  }

  predicate IsCode(table: CodeTable, v: Value)
  {
    exists i | 0 <= i < |table| :: table[i].0 == v
  }

  /** The name of a code; anything that is not a code passes through unchanged. */
  function Lookup(table: CodeTable, v: Value): (r: Value)
    ensures !IsCode(table, v) ==> r == v
    ensures IsCode(table, v) ==> exists i | 0 <= i < |table| :: table[i] == (v, r)
  {
    if table == [] then v
    else if table[0].0 == v then table[0].1
    else
      var r := Lookup(table[1..], v);
      assert IsCode(table[1..], v) ==> exists i | 1 <= i < |table| :: table[i] == (v, r) by {
        if IsCode(table[1..], v) {
          var i :| 0 <= i < |table[1..]| && table[1..][i] == (v, r);
          assert table[i + 1] == (v, r);
        }
      }
      r
  }

  function PhaseName(v: Value): Value { Lookup(PhaseCodes, v) }

  function TriggerName(v: Value): Value { Lookup(TriggerCodes, v) }

  /** Rewriting a column cell by cell through a table. */
  function DecodeRows(rows: seq<Row>, column: string, table: CodeTable): (r: seq<Row>)
    ensures |r| == |rows|
    ensures forall i | 0 <= i < |rows| :: r[i].Keys == rows[i].Keys
    ensures forall i, k | 0 <= i < |rows| && k in rows[i] && k != column :: r[i][k] == rows[i][k]
    ensures forall i | 0 <= i < |rows| && column in rows[i] :: r[i][column] == Lookup(table, rows[i][column])
  {
    seq(|rows|, i requires 0 <= i < |rows| =>
      if column in rows[i] then rows[i][column := Lookup(table, rows[i][column])] else rows[i])
  }

  /** `df[column].replace(code, name, inplace=True)`. */
  function ReplaceRows(rows: seq<Row>, column: string, code: Value, name: Value): (r: seq<Row>)
    ensures |r| == |rows|
    ensures forall i | 0 <= i < |rows| :: r[i].Keys == rows[i].Keys
    ensures forall i | 0 <= i < |rows| && column in rows[i] && rows[i][column] == code :: r[i][column] == name
    ensures forall i, k | 0 <= i < |rows| && k in rows[i] && (k != column || rows[i][k] != code) :: r[i][k] == rows[i][k]
  {
    seq(|rows|, i requires 0 <= i < |rows| =>
      if column in rows[i] && rows[i][column] == code then rows[i][column := name] else rows[i])
  }

  /** The replace calls of a table, one after another. */
  function ReplaceAll(rows: seq<Row>, column: string, table: CodeTable): (r: seq<Row>)
    ensures |r| == |rows|
    decreases |table|
  {
    if table == [] then rows else ReplaceAll(ReplaceRows(rows, column, table[0].0, table[0].1), column, table[1..])
  }

  lemma LookupNames(table: CodeTable, v: Value)
    requires NamesAreNotCodes(table)
    ensures IsCode(table, v) ==> !IsCode(table, Lookup(table, v))
  {
  }

  /** Running the replace calls one after another decodes every cell through the table. */
  lemma {:induction false} ReplaceAllDecodes(rows: seq<Row>, column: string, table: CodeTable)
    requires NamesAreNotCodes(table)
    ensures ReplaceAll(rows, column, table) == DecodeRows(rows, column, table)
    decreases |table|
  {
    if table != [] {
      var (code, name) := table[0];
      var rest := table[1..];
      var mid := ReplaceRows(rows, column, code, name);
      assert NamesAreNotCodes(rest) by {
        forall i, j | 0 <= i < |rest| && 0 <= j < |rest| ensures rest[i].1 != rest[j].0 {
          assert rest[i] == table[i + 1] && rest[j] == table[j + 1];
        }
      }
      ReplaceAllDecodes(mid, column, rest);
      forall i | 0 <= i < |rows| ensures DecodeRows(mid, column, rest)[i] == DecodeRows(rows, column, table)[i] {
        if column in rows[i] {
          var v := rows[i][column];
          if v == code {
            assert !IsCode(rest, name) by {
              forall j | 0 <= j < |rest| ensures rest[j].0 != name {
                assert rest[j] == table[j + 1];
              }
            }
          }
        }
      }
      assert DecodeRows(mid, column, rest) == DecodeRows(rows, column, table);
    } else {
      forall i | 0 <= i < |rows| ensures DecodeRows(rows, column, table)[i] == rows[i] {
        if column in rows[i] {
          assert rows[i][column := rows[i][column]] == rows[i];
        }
      }
    }
  }

  /** Decoding a decoded column again changes nothing. */
  lemma DecodeIdempotent(rows: seq<Row>, column: string, table: CodeTable)
    requires NamesAreNotCodes(table)
    ensures DecodeRows(DecodeRows(rows, column, table), column, table) == DecodeRows(rows, column, table)
  {
    var once := DecodeRows(rows, column, table);
    forall i | 0 <= i < |rows| ensures DecodeRows(once, column, table)[i] == once[i] {
      if column in rows[i] {
        LookupNames(table, rows[i][column]);
      }
    }
  }

  lemma CodeTablesHaveNoChains()
    ensures NamesAreNotCodes(PhaseCodes) && NamesAreNotCodes(TriggerCodes)
  {
  }

  // =====================================================================
  // evalSingleFile

  /** The members `DataFrame.from_dict(event[3], orient='index')` makes a row
      of, for a recovery/cr_phase event; `None` for any other event.  A dict
      gives its members and an empty list none; a non-empty list or string
      has no `values` (AttributeError), an empty string is refused by the
      frame constructor (ValueError), and other values have no `len`. */
  function PhaseValues(event: Value): (r: Result<Option<seq<(string, Value)>>>)
    ensures r.Ok? && r.value.Some? ==>
      event.Arr? && |event.items| >= 4 && event.items[1] == Str("recovery") && event.items[2] == Str("cr_phase")
      && (event.items[3] == Obj(r.value.value) || (event.items[3] == Arr([]) && r.value.value == []))
  {
    var category :- Item(event, 1);
    if category != Str("recovery") then Ok(None)
    else
      var name :- Item(event, 2);
      if name != Str("cr_phase") then Ok(None)
      else
        var data :- Item(event, 3);
        match data
        case Obj(ms) => Ok(Some(ms))
        case Arr(xs) => if xs == [] then Ok(Some([])) else Err(AttributeError)
        case Str(s) => if s == "" then Err(ValueError) else Err(AttributeError)
        case _ => Err(TypeError)
  }

  /** An event yields members exactly when it is a list whose second and third
      items are "recovery" and "cr_phase" and whose fourth is a dict or an
      empty list; it is skipped exactly when its second item, or the third
      after a "recovery", is something else. */
  lemma PhaseValuesSpec(event: Value)
    ensures PhaseValues(event).Ok? && PhaseValues(event).value.Some? <==>
      && event.Arr? && |event.items| >= 4
      && event.items[1] == Str("recovery") && event.items[2] == Str("cr_phase")
      && (event.items[3].Obj? || event.items[3] == Arr([]))
    ensures PhaseValues(event) == Ok(None) <==>
      && Item(event, 1).Ok?
      && (Item(event, 1).value != Str("recovery") || (Item(event, 2).Ok? && Item(event, 2).value != Str("cr_phase")))
    ensures PhaseValues(event).Err? ==> PhaseValues(event).error in {KeyError, IndexError, TypeError, AttributeError, ValueError}
  {
  }

  /** The frame the event loop builds, before the filename column. */
  function PhaseFrame(events: seq<Value>): (r: Result<Table>)
    ensures r.Ok? ==> WellFormed(r.value)
    ensures r.Ok? ==> (r.value.rows == [] <==> r.value.columns == [])
  {
    if events == [] then Ok(Table([], []))
    else
      var prev :- PhaseFrame(events[..|events| - 1]);
      var values :- PhaseValues(events[|events| - 1]);
      match values
      case None => Ok(prev)
      case Some(vs) => AppendRowWellFormed(prev, vs); Ok(AppendRow(prev, vs))
  }

  /** An event that is not a cr_phase event adds no row. */
  lemma OtherEventsIgnored(events: seq<Value>, event: Value)
    requires PhaseValues(event) == Ok(None)
    ensures PhaseFrame(events + [event]) == PhaseFrame(events)
  {
    assert (events + [event])[..|events|] == events;
  }

  /** A cr_phase event with data adds exactly one row, after the earlier ones. */
  lemma PhaseEventAppends(events: seq<Value>, event: Value, data: seq<(string, Value)>)
    requires PhaseValues(event) == Ok(Some(data)) && data != [] && PhaseFrame(events).Ok?
    ensures PhaseFrame(events + [event]).Ok?
    ensures PhaseFrame(events + [event]).value.rows == PhaseFrame(events).value.rows + [RowOf(data)]
  {
    var all := events + [event];
    assert all[..|all| - 1] == events && all[|all| - 1] == event;
    assert PhaseFrame(all) == Ok(AppendRow(PhaseFrame(events).value, data));
  }

  /** The code rewriting: `old` and `new` through the phase table (each a
      KeyError when missing), `trigger` through its table when present. */
  function DecodeCodes(t: Table): (r: Result<Table>)
    ensures r.Ok? <==> "old" in t.columns && "new" in t.columns
    ensures r.Err? ==> r.error == KeyError
    ensures r.Ok? ==> r.value.columns == t.columns && |r.value.rows| == |t.rows|
    ensures r.Ok? ==> forall i | 0 <= i < |t.rows| :: r.value.rows[i].Keys == t.rows[i].Keys
    ensures r.Ok? ==> forall i | 0 <= i < |t.rows| && "old" in t.rows[i] :: r.value.rows[i]["old"] == PhaseName(t.rows[i]["old"])
    ensures r.Ok? ==> forall i | 0 <= i < |t.rows| && "new" in t.rows[i] :: r.value.rows[i]["new"] == PhaseName(t.rows[i]["new"])
    ensures r.Ok? && "trigger" in t.columns ==>
      forall i | 0 <= i < |t.rows| && "trigger" in t.rows[i] :: r.value.rows[i]["trigger"] == TriggerName(t.rows[i]["trigger"])
    ensures r.Ok? && "trigger" !in t.columns ==>
      forall i | 0 <= i < |t.rows| && "trigger" in t.rows[i] :: r.value.rows[i]["trigger"] == t.rows[i]["trigger"]
    ensures r.Ok? ==> forall i, k | 0 <= i < |t.rows| && k in t.rows[i] && k !in {"old", "new", "trigger"} ::
      r.value.rows[i][k] == t.rows[i][k]
  {
    if "old" !in t.columns || "new" !in t.columns then Err(KeyError)
    else
      var rows := DecodeRows(DecodeRows(t.rows, "old", PhaseCodes), "new", PhaseCodes);
      Ok(Table(t.columns, if "trigger" in t.columns then DecodeRows(rows, "trigger", TriggerCodes) else rows))
  }

  /** What follows the loop: an empty frame is returned as it is; otherwise
      the filename column goes first and the codes are decoded. */
  function Finish(t: Table, filename: string): (r: Result<Table>)
    ensures t.rows == [] ==> r == Ok(t)
    ensures t.rows != [] && r.Ok? ==> r.value.columns == ["filename"] + t.columns && |r.value.rows| == |t.rows|
    ensures t.rows != [] ==> (r.Ok? <==> "filename" !in t.columns && "old" in t.columns && "new" in t.columns)
  {
    if t.rows == [] then Ok(t)
    else if "filename" in t.columns then Err(ValueError)
    else DecodeCodes(Table(["filename"] + t.columns, SetColumn(t.rows, "filename", Str(filename))))
  }

  /** Every row of a non-empty result carries the file name in its new first
      column, and fields other than old, new and trigger pass through unchanged. */
  lemma FinishLabelsRows(t: Table, filename: string)
    requires t.rows != [] && Finish(t, filename).Ok?
    ensures var r := Finish(t, filename).value;
      forall i | 0 <= i < |t.rows| ::
        && "filename" in r.rows[i] && r.rows[i]["filename"] == Str(filename)
        && forall k | k in t.rows[i] && k !in {"filename", "old", "new", "trigger"} ::
             k in r.rows[i] && r.rows[i][k] == t.rows[i][k]
  {
  }

  /** evalSingleFile: `json.load` (an undecodable file fails), the events of
      the first trace, the row loop, then the column work. */
  function EvalSingleFile(filename: string, text: string, decode: Decoder): Result<Table>
  {
    match decode(text)
    case None => Err(ValueError)
    case Some(doc) =>
      var events :- TraceEvents(doc);
      var t :- PhaseFrame(events);
      Finish(t, filename)
  }

  /** The column work keeps a frame well formed and puts the file name first. */
  lemma FinishWellFormed(t: Table, filename: string)
    requires WellFormed(t) && t.rows != [] && Finish(t, filename).Ok?
    ensures var r := Finish(t, filename).value;
      WellFormed(r) && r.columns[0] == "filename" && "filename" !in r.columns[1..]
  {
    var r := Finish(t, filename).value;
    assert r.columns[1..] == t.columns;
  }

  /** After the column work each `old` and `new` cell holds the phase name of
      the code read from the event, each `trigger` cell the trigger name, and
      no `old` or `new` cell holds a phase code any more. */
  lemma FinishDecodesPhases(t: Table, filename: string)
    requires t.rows != [] && Finish(t, filename).Ok?
    ensures var r := Finish(t, filename).value;
      && |r.rows| == |t.rows|
      && (forall i | 0 <= i < |t.rows| && "old" in t.rows[i] :: r.rows[i]["old"] == PhaseName(t.rows[i]["old"]))
      && (forall i | 0 <= i < |t.rows| && "new" in t.rows[i] :: r.rows[i]["new"] == PhaseName(t.rows[i]["new"]))
      && (forall i | 0 <= i < |t.rows| && "trigger" in t.rows[i] && "trigger" in t.columns ::
            r.rows[i]["trigger"] == TriggerName(t.rows[i]["trigger"]))
    ensures var r := Finish(t, filename).value;
      forall i | 0 <= i < |r.rows| ::
        && ("old" in r.rows[i] ==> !IsCode(PhaseCodes, r.rows[i]["old"]))
        && ("new" in r.rows[i] ==> !IsCode(PhaseCodes, r.rows[i]["new"]))
  {
    CodeTablesHaveNoChains();
    var filled := SetColumn(t.rows, "filename", Str(filename));
    var once := DecodeRows(filled, "old", PhaseCodes);
    var twice := DecodeRows(once, "new", PhaseCodes);
    var r := Finish(t, filename).value;
    forall i | 0 <= i < |r.rows|
      ensures "old" in r.rows[i] ==> !IsCode(PhaseCodes, r.rows[i]["old"])
      ensures "new" in r.rows[i] ==> !IsCode(PhaseCodes, r.rows[i]["new"])
    {
      if "old" in filled[i] {
        LookupNames(PhaseCodes, filled[i]["old"]);
        LookupNames(PhaseCodes, once[i]["old"]);
      }
      if "new" in once[i] {
        LookupNames(PhaseCodes, once[i]["new"]);
      }
    }
  }

  /** The result of evalSingleFile is well formed: empty exactly when it has
      no columns, and otherwise led by the file-name column. */
  lemma EvalSingleFileShape(filename: string, text: string, decode: Decoder)
    requires EvalSingleFile(filename, text, decode).Ok?
    ensures var t := EvalSingleFile(filename, text, decode).value;
      WellFormed(t) && (t.rows == [] <==> t.columns == [])
      && (t.rows != [] ==> t.columns[0] == "filename" && "filename" !in t.columns[1..])
  {
    var t := PhaseFrame(TraceEvents(decode(text).value).value).value;
    if t.rows != [] {
      FinishWellFormed(t, filename);
    }
  }

  // =====================================================================
  // The frame as the script mutates it

  /** A pandas data frame, changed in place. */
  class Frame {
    var columns: seq<string>
    var rows: seq<Row>

    function Contents(): Table
      reads this
    {
      Table(columns, rows)
    }

    constructor ()
      ensures Contents() == Table([], [])
    {
      columns := [];
      rows := [];
    }

    /** `df = pd.concat([df, DataFrame.from_dict(values)])`. */
    method Concat(values: seq<(string, Value)>)
      modifies this
      ensures Contents() == AppendRow(old(Contents()), values)
    {
      if values != [] {
        columns := MergeColumns(columns, Keys(values));
        rows := rows + [RowOf(values)];
      }
    }

    /** `df.insert(0, column, value)`: a column that exists already is refused. */
    method Insert(column: string, value: Value) returns (r: Result<bool>)
      modifies this
      ensures column in old(columns) ==> r == Err(ValueError) && Contents() == old(Contents())
      ensures column !in old(columns) ==>
        r == Ok(true) && Contents() == Table([column] + old(columns), SetColumn(old(rows), column, value))
    {
      if column in columns {
        return Err(ValueError);
      }
      columns := [column] + columns;
      rows := SetColumn(rows, column, value);
      r := Ok(true);
    }

    /** `df[column].replace(code, name, inplace=True)`: a missing column is a KeyError. */
    method Replace(column: string, code: Value, name: Value) returns (r: Result<bool>)
      modifies this
      ensures column !in old(columns) ==> r == Err(KeyError) && Contents() == old(Contents())
      ensures column in old(columns) ==>
        r == Ok(true) && Contents() == Table(old(columns), ReplaceRows(old(rows), column, code, name))
    {
      if column !in columns {
        return Err(KeyError);
      }
      rows := ReplaceRows(rows, column, code, name);
      r := Ok(true);
    }

    /** The replace calls of one column, one per table entry. */
    method ReplaceCodes(column: string, table: CodeTable) returns (r: Result<bool>)
      modifies this
      ensures column !in old(columns) ==> r == Err(KeyError) && Contents() == old(Contents())
      ensures column in old(columns) ==>
        r == Ok(true) && Contents() == Table(old(columns), ReplaceAll(old(rows), column, table))
    {
      if column !in columns {
        return Err(KeyError);
      }
      ghost var start := rows;
      var k := 0;
      while k < |table|
        invariant 0 <= k <= |table|
        invariant column in columns && columns == old(columns)
        invariant ReplaceAll(start, column, table) == ReplaceAll(rows, column, table[k..])
      {
        var step := Replace(column, table[k].0, table[k].1);
        assert table[k..][1..] == table[k + 1..];
        k := k + 1;
      }
      r := Ok(true);
    }

    /** The six phase replacements on `old` and on `new`, then the trigger
        replacements when that column exists. */
    method ReplaceAllCodes() returns (r: Result<bool>)
      modifies this
      ensures DecodeCodes(old(Contents())) == (if r.Ok? then Ok(Contents()) else Err(r.error))
    {
      CodeTablesHaveNoChains();
      ghost var start := rows;
      var o := ReplaceCodes("old", PhaseCodes);
      if o.Err? { return o; }
      ReplaceAllDecodes(start, "old", PhaseCodes);
      ghost var once := rows;
      var n := ReplaceCodes("new", PhaseCodes);
      if n.Err? { return n; }
      ReplaceAllDecodes(once, "new", PhaseCodes);
      if "trigger" in columns {
        ghost var twice := rows;
        var g := ReplaceCodes("trigger", TriggerCodes);
        ReplaceAllDecodes(twice, "trigger", TriggerCodes);
      }
      r := Ok(true);
    }

    /** The column work after the loop on a non-empty frame: the file name
        inserted first, then the code replacements. */
    method LabelAndDecode(filename: string) returns (r: Result<bool>)
      requires rows != []
      modifies this
      ensures Finish(old(Contents()), filename) == (if r.Ok? then Ok(Contents()) else Err(r.error))
    {
      var ins := Insert("filename", Str(filename));
      if ins.Err? { return ins; }
      r := ReplaceAllCodes();
    }
  }

  /** The event loop of evalSingleFile: a fresh frame grown by one `concat`
      per cr_phase event. */
  method ScanEvents(events: seq<Value>) returns (r: Result<Frame>)
    ensures r.Ok? ==> fresh(r.value) && PhaseFrame(events) == Ok(r.value.Contents())
    ensures r.Err? ==> PhaseFrame(events) == Err(r.error)
  {
    var df := new Frame();
    var i := 0;
    while i < |events|
      invariant 0 <= i <= |events|
      invariant fresh(df)
      invariant PhaseFrame(events[..i]) == Ok(df.Contents())
    {
      PhaseFrameStep(events, i);
      var values := PhaseValues(events[i]);
      if values.Err? {
        PhaseFramePrefixFails(events, i + 1);
        return Err(values.error);
      }
      if values.value.Some? {
        df.Concat(values.value.value);
      }
      i := i + 1;
    }
    assert events[..i] == events;
    r := Ok(df);
  }

  /** evalSingleFile as the script runs it: a frame grown event by event,
      then the filename column and the in-place code rewriting. */
  method RunEvalSingleFile(filename: string, text: string, decode: Decoder) returns (r: Result<Table>)
    ensures r == EvalSingleFile(filename, text, decode)
  {
    var doc := decode(text);
    if doc.None? { return Err(ValueError); }
    var ev := TraceEvents(doc.value);
    if ev.Err? { return Err(ev.error); }
    var scanned := ScanEvents(ev.value);
    if scanned.Err? { return Err(scanned.error); }
    var df := scanned.value;
    if df.rows == [] {
      return Ok(df.Contents());
    }
    var done := df.LabelAndDecode(filename);
    r := if done.Ok? then Ok(df.Contents()) else Err(done.error);
  }

  /** The frame after one more event, from the frame before it. */
  lemma PhaseFrameStep(events: seq<Value>, i: nat)
    requires i < |events| && PhaseFrame(events[..i]).Ok?
    ensures PhaseValues(events[i]).Err? ==> PhaseFrame(events[..i + 1]) == Err(PhaseValues(events[i]).error)
    ensures PhaseValues(events[i]) == Ok(None) ==> PhaseFrame(events[..i + 1]) == PhaseFrame(events[..i])
    ensures PhaseValues(events[i]).Ok? && PhaseValues(events[i]).value.Some? ==>
      PhaseFrame(events[..i + 1]) == Ok(AppendRow(PhaseFrame(events[..i]).value, PhaseValues(events[i]).value.value))
  {
    assert events[..i + 1][..i] == events[..i];
  }

  lemma {:induction false} PhaseFramePrefixFails(events: seq<Value>, i: nat)
    requires i <= |events| && PhaseFrame(events[..i]).Err?
    ensures PhaseFrame(events) == PhaseFrame(events[..i])
    decreases |events| - i
  {
    if i < |events| {
      assert events[..i + 1][..i] == events[..i];
      PhaseFramePrefixFails(events, i + 1);
    } else {
      assert events[..i] == events;
    }
  }
}
