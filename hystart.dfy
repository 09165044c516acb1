/** The HyStart evaluations: scans over text logs that find where a sender
    left slow start, how large its congestion window was then, and how long
    that took. quiche logs are read in three phases that share one file
    cursor, picoquic logs up to the first exit test, Linux `dmesg` logs line
    by line. Regular-expression captures and timestamp parsing are
    parameters (`...Captures` below): each yields None where its expression
    does not match, which is where the script's `.group(1)` raises. */
module Hystart {
  import opened Outcomes
  import opened Strings
  import opened Sorting

  // ---------------------------------------------------------------------
  // An open log file

  /** A text file opened for reading: its lines, each with its terminator,
      and how many have been consumed. `for line in f` and `next(f)` both
      advance the same cursor. */
  class LineFile {
    const lines: seq<string>
    var pos: nat

    ghost predicate Valid()
      reads this
    {
      pos <= |lines|
    }

    constructor (lines: seq<string>)
      ensures this.lines == lines && pos == 0 && Valid()
    {
      this.lines := lines;
      pos := 0;
    }

    /** `next(f)`: the following line, or None where Python raises
        StopIteration. */
    method Next() returns (line: Option<string>)
      requires Valid()
      modifies this
      ensures Valid()
      ensures old(pos) < |lines| ==> line == Some(lines[old(pos)]) && pos == old(pos) + 1
      ensures old(pos) == |lines| ==> line == None && pos == old(pos)
    {
      if pos < |lines| {
        line := Some(lines[pos]);
        pos := pos + 1;
      } else {
        line := None;
      }
    }
  }

  /** The first line at or after `from` that satisfies `p`. */
  function FirstFrom(lines: seq<string>, from: nat, p: string -> bool): (r: Option<nat>)
    ensures r.Some? ==> from <= r.value < |lines| && p(lines[r.value])
    ensures forall k | from <= k < |lines| && (r.None? || k < r.value) :: !p(lines[k])
    decreases |lines| - from
  {
    if from >= |lines| then None
    else if p(lines[from]) then Some(from)
    else FirstFrom(lines, from + 1, p)
  }

  /** Where the cursor stands after a `for ... break` loop: just past the
      line it stopped at, or at the end when it ran out. */
  function Resume(lines: seq<string>, at: Option<nat>): nat
  {
    if at.Some? then at.value + 1 else |lines|
  }

  /** `for line in f: if p(line): break`, reporting the line it stopped at. */
  method ScanUntil(f: LineFile, p: string -> bool) returns (at: Option<nat>)
    requires f.Valid()
    modifies f
    ensures f.Valid()
    ensures at == FirstFrom(f.lines, old(f.pos), p)
    ensures f.pos == Resume(f.lines, at)
  {
    ghost var start := f.pos;
    while true
      invariant f.Valid() && start <= f.pos
      invariant FirstFrom(f.lines, start, p) == FirstFrom(f.lines, f.pos, p)
      decreases |f.lines| - f.pos
    {
      var line := f.Next();
      if line.None? {
        return None;
      }
      if p(line.value) {
        return Some(f.pos - 1);
      }
    }
  }

  /** What a capture yields at the line a scan stopped at: nothing when the
      scan found no line, AttributeError when the expression does not match
      there. */
  function CaptureAt<T>(lines: seq<string>, at: Option<nat>, capture: string -> Option<T>): (r: Result<Option<T>>)
    requires at.Some? ==> at.value < |lines|
    ensures r.Err? <==> at.Some? && capture(lines[at.value]).None?
    ensures r.Err? ==> r.error == AttributeError
    ensures r.Ok? ==> r.value == if at.Some? then capture(lines[at.value]) else None
  {
    match at
    case None => Ok(None)
    case Some(i) =>
      match capture(lines[i])
      case None => Err(AttributeError)
      case Some(v) => Ok(Some(v))
  }

  // ---------------------------------------------------------------------
  // Plot order

  /** `customSort`: the operators in plot order. */
  const CustomSort: map<string, nat> :=
    map["Konnect" := 1, "Skydsl" := 2, "Astra" := 3, "Tooway" := 4, "NetEm" := 5, "Starlink" := 6]

  /** The sort key of an operator; one outside `customSort` maps to NaN,
      which pandas places last. */
  function OperatorRank(operator: string): (rank: nat)
    ensures rank <= 7
    ensures rank == 7 <==> operator !in CustomSort
  {
    if operator in CustomSort then CustomSort[operator] else 7
  }

  lemma OperatorRanks()
    ensures OperatorRank("Konnect") < OperatorRank("Skydsl") < OperatorRank("Astra")
          < OperatorRank("Tooway") < OperatorRank("NetEm") < OperatorRank("Starlink")
    ensures forall operator | operator !in CustomSort :: OperatorRank("Starlink") < OperatorRank(operator)
  {
  }

  /** `pd.DataFrame(res).sort_values(by=['Operator'], key=...)`: the rows by
      operator rank. A frame built from no rows has no `Operator` column, so
      sorting it raises KeyError. */
  function ByOperator<T(==)>(rows: seq<T>, operator: T -> string): (r: Result<seq<T>>)
    ensures r.Err? <==> rows == []
    ensures r.Err? ==> r.error == KeyError
    ensures r.Ok? ==> multiset(r.value) == multiset(rows)
    ensures r.Ok? ==> forall i, j | 0 <= i < j < |r.value| ::
      OperatorRank(operator(r.value[i])) <= OperatorRank(operator(r.value[j]))
  {
    if rows == [] then Err(KeyError)
    else
      var sorted := SortBy(rows, (row: T) => (OperatorRank(operator(row)) as int, 0));
      assert forall i, j | 0 <= i < j < |sorted| ::
        KeyLe((OperatorRank(operator(sorted[i])) as int, 0), (OperatorRank(operator(sorted[j])) as int, 0));
      Ok(sorted)
  }

  // ---------------------------------------------------------------------
  // quiche: three phases over one cursor

  predicate NewConnectionLine(line: string) { Contains(line, "New connection") }

  predicate CssStartLine(line: string) { Contains(line, "css_start_time=Some") }

  /** `STREAM id=0 (.*?) fin=true`: ` fin=true` somewhere after the first
      `STREAM id=0 `. */
  predicate StreamFinLine(line: string)
  {
    match Find(line, "STREAM id=0 ")
    case None => false
    case Some(i) => Contains(line[i + 12..], " fin=true")
  }

  /** The line each phase stopped at. */
  datatype Phases = Phases(newConn: Option<nat>, css: Option<nat>, fin: Option<nat>)

  /** The three `for ... break` loops: each continues where the previous one
      stopped, so a phase that finds nothing leaves nothing for the later
      ones. */
  function QuichePhases(lines: seq<string>): (p: Phases)
    ensures p.newConn.Some? ==> p.newConn.value < |lines|
    ensures p.css.Some? ==> p.newConn.Some? && p.newConn.value < p.css.value < |lines|
    ensures p.fin.Some? ==> p.css.Some? && p.css.value < p.fin.value < |lines|
  {
    var newConn := FirstFrom(lines, 0, NewConnectionLine);
    var css := FirstFrom(lines, Resume(lines, newConn), CssStartLine);
    var fin := FirstFrom(lines, Resume(lines, css), StreamFinLine);
    Phases(newConn, css, fin)
  }

  /** Each phase stops at the first line of its kind after the line the
      previous phase stopped at, and finds one exactly when there is one. */
  lemma QuichePhasesFirst(lines: seq<string>)
    ensures var p := QuichePhases(lines);
      && (p.newConn.Some? <==> exists k | 0 <= k < |lines| :: NewConnectionLine(lines[k]))
      && (p.newConn.Some? ==> forall k | 0 <= k < p.newConn.value :: !NewConnectionLine(lines[k]))
      && (p.css.Some? <==> p.newConn.Some? && exists k | p.newConn.value < k < |lines| :: CssStartLine(lines[k]))
      && (p.css.Some? ==> forall k | p.newConn.value < k < p.css.value :: !CssStartLine(lines[k]))
      && (p.fin.Some? <==> p.css.Some? && exists k | p.css.value < k < |lines| :: StreamFinLine(lines[k]))
      && (p.fin.Some? ==> forall k | p.css.value < k < p.fin.value :: !StreamFinLine(lines[k]))
  {
  }

  /** What the expressions capture from one quiche log line: `stamp` for
      `\d\d\d\d-\d\d-\d\dT(.*?)Z` read by dateutil as a POSIX timestamp,
      `cwnd` for `cwnd=(.*?)\s`. */
  datatype QuicheCaptures = QuicheCaptures(stamp: string -> Option<real>, cwnd: string -> Option<string>)

  datatype QuicheRow = QuicheRow(operator: string, iteration: string, tsNewConn: real, tsExit: real,
                                 cwndExit: int, tsFin: real, time2exit: real, time2fin: real)

  /** The name split: `data/` and `.rustlog` removed, split at '_'; the
      operator is the third field from the end and the iteration the last
      with `iter` removed. Fewer than three fields raise IndexError. */
  function QuicheName(file: string): (r: Result<(string, string)>)
    ensures r.Err? ==> r.error == IndexError
  {
    var fields := Split(Remove(Remove(file, "data/"), ".rustlog"), '_');
    if |fields| < 3 then Err(IndexError)
    else Ok((fields[|fields| - 3], Remove(fields[|fields| - 1], "iter")))
  }

  /** A log named `data/<f0>_..._<fn>_iter<i>.rustlog` is credited to the
      operator in the second-to-last field and to iteration `i`. */
  lemma QuicheNameRoundTrip(fields: seq<string>, iteration: nat)
    requires |fields| >= 2
    requires forall k | 0 <= k < |fields| :: '_' !in fields[k] && '.' !in fields[k] && '/' !in fields[k]
    ensures QuicheName("data/" + Join(fields + ["iter" + NatToString(iteration)], '_') + ".rustlog")
         == Ok((fields[|fields| - 2], NatToString(iteration)))
  {
    var digits := NatToString(iteration);
    var all := fields + ["iter" + digits];
    DigitsExclude(digits, '_');
    DigitsExclude(digits, '.');
    DigitsExclude(digits, '/');
    forall k | 0 <= k < |all|
      ensures '_' !in all[k] && '.' !in all[k] && '/' !in all[k]
    {
      if k < |fields| {
        assert all[k] == fields[k];
      } else {
        assert all[k] == "iter" + digits;
      }
    }
    var stem := Join(all, '_');
    JoinExcludes(all, '_', '.');
    JoinExcludes(all, '_', '/');
    QuicheStem(stem);
    SplitJoin(all, '_');
    assert all[|all| - 3] == fields[|fields| - 2];
    IterationField(digits);
    QuicheNameOfFields("data/" + stem + ".rustlog", all);
  }

  /** The name split once the fields are known. */
  lemma QuicheNameOfFields(file: string, all: seq<string>)
    requires |all| >= 3 && Split(Remove(Remove(file, "data/"), ".rustlog"), '_') == all
    ensures QuicheName(file) == Ok((all[|all| - 3], Remove(all[|all| - 1], "iter")))
  {
  }

  lemma IterationField(digits: string)
    requires AllDigits(digits)
    ensures Remove("iter" + digits, "iter") == digits
  {
    DigitsExclude(digits, 'i');
    RemoveLeading(digits, "iter");
  }

  /** Removing `data/` and `.rustlog` from the globbed path leaves the stem. */
  lemma QuicheStem(stem: string)
    requires '.' !in stem && '/' !in stem
    ensures Remove(Remove("data/" + stem + ".rustlog", "data/"), ".rustlog") == stem
  {
    var file := "data/" + stem + ".rustlog";
    assert file == "data/" + (stem + ".rustlog");
    assert StartsWith(file, "data/") && file[5..] == stem + ".rustlog";
    RemoveNoLast(stem + ".rustlog", "data/");
    RemoveTrailing(stem, ".rustlog");
  }

  /** One file's row: only when all four values were found and are truthy
      (a zero timestamp or an empty window capture counts as missing); the
      two durations are measured from the new-connection timestamp. */
  function QuicheRecord(file: string, lines: seq<string>, caps: QuicheCaptures): (r: Result<Option<QuicheRow>>)
    ensures r.Err? ==> r.error in {IndexError, AttributeError, ValueError}
  {
    var name :- QuicheName(file);
    var p := QuichePhases(lines);
    var tsNewConn :- CaptureAt(lines, p.newConn, caps.stamp);
    var tsCss :- CaptureAt(lines, p.css, caps.stamp);
    var cwndCss :- CaptureAt(lines, p.css, caps.cwnd);
    var tsFin :- CaptureAt(lines, p.fin, caps.stamp);
    if Truthy(tsNewConn) && Truthy(tsCss) && cwndCss.Some? && cwndCss.value != [] && Truthy(tsFin) then
      var cwnd :- PyInt(cwndCss.value);
      Ok(Some(QuicheRow(name.0, name.1, tsNewConn.value, tsCss.value, cwnd, tsFin.value,
                        tsCss.value - tsNewConn.value, tsFin.value - tsNewConn.value)))
    else
      Ok(None)
  }

  /** A row needs all three phases; its stamps are the nonzero captures at
      the phase lines, and both durations are measured from the
      new-connection stamp. */
  lemma QuicheRecordSpec(file: string, lines: seq<string>, caps: QuicheCaptures)
    ensures var r := QuicheRecord(file, lines, caps);
      r.Ok? && r.value.Some? ==>
      var p, row := QuichePhases(lines), r.value.value;
      && p.newConn.Some? && p.css.Some? && p.fin.Some?
      && QuicheName(file) == Ok((row.operator, row.iteration))
      && caps.stamp(lines[p.newConn.value]) == Some(row.tsNewConn) && row.tsNewConn != 0.0
      && caps.stamp(lines[p.css.value]) == Some(row.tsExit) && row.tsExit != 0.0
      && caps.stamp(lines[p.fin.value]) == Some(row.tsFin) && row.tsFin != 0.0
      && row.time2exit == row.tsExit - row.tsNewConn
      && row.time2fin == row.tsFin - row.tsNewConn
  {
  }

  lemma QuicheRecordDurations(file: string, lines: seq<string>, caps: QuicheCaptures)
    ensures var r := QuicheRecord(file, lines, caps);
      r.Ok? && r.value.Some? ==>
      r.value.value.time2exit == r.value.value.tsExit - r.value.value.tsNewConn &&
      r.value.value.time2fin == r.value.value.tsFin - r.value.value.tsNewConn
  {
    QuicheRecordSpec(file, lines, caps);
  }

  /** A capture that fails at any phase line fails the whole file, whatever
      the order the captures are taken in. */
  lemma QuicheCaptureFails(file: string, lines: seq<string>, caps: QuicheCaptures)
    requires QuicheName(file).Ok?
    requires var p := QuichePhases(lines);
      || CaptureAt(lines, p.newConn, caps.stamp).Err? || CaptureAt(lines, p.css, caps.stamp).Err?
      || CaptureAt(lines, p.css, caps.cwnd).Err? || CaptureAt(lines, p.fin, caps.stamp).Err?
    ensures QuicheRecord(file, lines, caps) == Err(AttributeError)
  {
  }

  /** The outcome once every capture has succeeded. */
  lemma QuicheRecordOfCaptures(file: string, lines: seq<string>, caps: QuicheCaptures,
                               tsNewConn: Option<real>, tsCss: Option<real>, cwndCss: Option<string>, tsFin: Option<real>)
    requires QuicheName(file).Ok?
    requires var p := QuichePhases(lines);
      && CaptureAt(lines, p.newConn, caps.stamp) == Ok(tsNewConn) && CaptureAt(lines, p.css, caps.stamp) == Ok(tsCss)
      && CaptureAt(lines, p.css, caps.cwnd) == Ok(cwndCss) && CaptureAt(lines, p.fin, caps.stamp) == Ok(tsFin)
    ensures var name := QuicheName(file).value;
      QuicheRecord(file, lines, caps) ==
        if Truthy(tsNewConn) && Truthy(tsCss) && cwndCss.Some? && cwndCss.value != [] && Truthy(tsFin) then
          match PyInt(cwndCss.value)
          case Err(e) => Err(e)
          case Ok(cwnd) => Ok(Some(QuicheRow(name.0, name.1, tsNewConn.value, tsCss.value, cwnd, tsFin.value,
                                             tsCss.value - tsNewConn.value, tsFin.value - tsNewConn.value)))
        else Ok(None)
  {
  }

  /** Python truthiness of an optional timestamp. */
  predicate Truthy(x: Option<real>) { x.Some? && x.value != 0.0 }

  /** A log in which some phase finds nothing gives no row. */
  lemma QuicheRowNeedsAllPhases(file: string, lines: seq<string>, caps: QuicheCaptures)
    requires QuichePhases(lines).fin.None?
    ensures QuicheRecord(file, lines, caps).Ok? ==> QuicheRecord(file, lines, caps).value.None?
  {
  }

  /** The body of `evalQuiche`'s file loop. */
  method EvalQuicheFile(file: string, lines: seq<string>, caps: QuicheCaptures) returns (r: Result<Option<QuicheRow>>)
    ensures r == QuicheRecord(file, lines, caps)
  {
    var name :- QuicheName(file);
    var f := new LineFile(lines);
    var tsNewConn: Option<real> := None;
    var tsCss: Option<real> := None;
    var cwndCss: Option<string> := None;
    var tsFin: Option<real> := None;

    var newConn := ScanUntil(f, NewConnectionLine);
    if newConn.Some? {
      tsNewConn := caps.stamp(lines[newConn.value]);
      if tsNewConn.None? {
        QuicheCaptureFails(file, lines, caps);
        return Err(AttributeError);
      }
    }
    var css := ScanUntil(f, CssStartLine);
    if css.Some? {
      tsCss := caps.stamp(lines[css.value]);
      if tsCss.None? {
        QuicheCaptureFails(file, lines, caps);
        return Err(AttributeError);
      }
      cwndCss := caps.cwnd(lines[css.value]);
      if cwndCss.None? {
        QuicheCaptureFails(file, lines, caps);
        return Err(AttributeError);
      }
    }
    var fin := ScanUntil(f, StreamFinLine);
    if fin.Some? {
      tsFin := caps.stamp(lines[fin.value]);
      if tsFin.None? {
        QuicheCaptureFails(file, lines, caps);
        return Err(AttributeError);
      }
    }
    assert QuichePhases(lines) == Phases(newConn, css, fin);
    QuicheRecordOfCaptures(file, lines, caps, tsNewConn, tsCss, cwndCss, tsFin);

    if Truthy(tsNewConn) && Truthy(tsCss) && cwndCss.Some? && cwndCss.value != [] && Truthy(tsFin) {
      var cwnd :- PyInt(cwndCss.value);
      return Ok(Some(QuicheRow(name.0, name.1, tsNewConn.value, tsCss.value, cwnd, tsFin.value,
                               tsCss.value - tsNewConn.value, tsFin.value - tsNewConn.value)));
    }
    return Ok(None);
  }

  /** A file as globbed: its path and its lines. */
  datatype LogFile = LogFile(name: string, lines: seq<string>)

  /** `res` after the file loop; the first file that raises ends the run. */
  function QuicheRows(files: seq<LogFile>, caps: QuicheCaptures): (r: Result<seq<QuicheRow>>)
    ensures r.Ok? ==> |r.value| <= |files|
    ensures r.Ok? ==> forall row | row in r.value ::
      row.time2exit == row.tsExit - row.tsNewConn && row.time2fin == row.tsFin - row.tsNewConn
    decreases |files|
  {
    if files == [] then Ok([])
    else
      var last := files[|files| - 1];
      var rows :- QuicheRows(files[..|files| - 1], caps);
      QuicheRecordDurations(last.name, last.lines, caps);
      var row :- QuicheRecord(last.name, last.lines, caps);
      Ok(if row.Some? then rows + [row.value] else rows)
  }

  /** A file that raises ends the run with its error. */
  lemma {:induction false} QuicheRowsFailureSticks(files: seq<LogFile>, i: nat, caps: QuicheCaptures)
    requires i <= |files| && QuicheRows(files[..i], caps).Err?
    ensures QuicheRows(files, caps) == QuicheRows(files[..i], caps)
    decreases |files|
  {
    if i < |files| {
      var front := files[..|files| - 1];
      assert front[..i] == files[..i];
      QuicheRowsFailureSticks(front, i, caps);
    } else {
      assert files[..i] == files;
    }
  }

  function QuicheOperator(row: QuicheRow): string { row.operator }

  /** `evalQuiche` up to the plots: every file's row, ordered by operator. */
  method EvalQuiche(files: seq<LogFile>, caps: QuicheCaptures) returns (r: Result<seq<QuicheRow>>)
    ensures r == (var rows :- QuicheRows(files, caps); ByOperator(rows, QuicheOperator))
  {
    var res: seq<QuicheRow> := [];
    for i := 0 to |files|
      invariant QuicheRows(files[..i], caps) == Ok(res)
    {
      assert files[..i + 1][..i] == files[..i];
      var row := EvalQuicheFile(files[i].name, files[i].lines, caps);
      if row.Err? {
        QuicheRowsFailureSticks(files, i + 1, caps);
        return Err(row.error);
      }
      if row.value.Some? {
        res := res + [row.value.value];
      }
    }
    assert files[..|files|] == files;
    r := ByOperator(res, QuicheOperator);
  }

  // ---------------------------------------------------------------------
  // picoquic: the first exit test and the line after it

  datatype ExitTest = DelayTest | LossTest

  function TestName(test: ExitTest): string
  {
    match test
    case DelayTest => "picoquic_hystart_test"
    case LossTest => "picoquic_hystart_loss_test"
  }

  /** The `type` the script reports for each test. */
  function TypeLabel(test: ExitTest): string
  {
    match test
    case DelayTest => "picoquic hystart delay"
    case LossTest => "picoquic hystart loss"
  }

  /** `<name>\sret\s1` at the start of `s`. */
  predicate RetOneAt(s: string, name: string)
  {
    && |s| >= |name| + 6
    && s[..|name|] == name
    && IsSpace(s[|name|])
    && s[|name| + 1..|name| + 4] == "ret"
    && IsSpace(s[|name| + 4])
    && s[|name| + 5] == '1'
  }

  /** `re.search(r'<name>\sret\s1', line)`. */
  predicate RetOne(line: string, test: ExitTest)
  {
    exists i | 0 <= i <= |line| :: RetOneAt(line[i..], TestName(test))
  }

  predicate ExitLine(line: string) { RetOne(line, DelayTest) || RetOne(line, LossTest) }

  /** The delay test is checked first on each line. */
  function TestOf(line: string): ExitTest
  {
    if RetOne(line, DelayTest) then DelayTest else LossTest
  }

  /** `exitStamp` for `<name>\] (\d+): JOERG <name> ret 1` and `cwnd` for
      `JOERG cwnd after <name> is (\d+)`, both per test. */
  datatype PicoquicCaptures = PicoquicCaptures(exitStamp: (ExitTest, string) -> Option<string>,
                                               cwnd: (ExitTest, string) -> Option<string>)

  /** `{'type': 'not found'}` or the four-key result; `time2exit` repeats
      `tsExit`, both as captured text. */
  datatype PicoquicReport =
    | NotFound
    | Exit(kind: string, tsExit: string, time2exit: string, cwndExit: string)

  /** The report for the test found at line `i`: its timestamp from that
      line, its window from the next one. */
  function ExitReport(lines: seq<string>, i: nat, caps: PicoquicCaptures): (r: Result<PicoquicReport>)
    requires i < |lines|
    ensures r.Err? ==> r.error in {AttributeError, StopIteration}
    ensures r.Ok? ==>
      && r.value.Exit? && i + 1 < |lines|
      && r.value.kind == TypeLabel(TestOf(lines[i])) && r.value.time2exit == r.value.tsExit
      && caps.exitStamp(TestOf(lines[i]), lines[i]) == Some(r.value.tsExit)
      && caps.cwnd(TestOf(lines[i]), lines[i + 1]) == Some(r.value.cwndExit)
  {
    var test := TestOf(lines[i]);
    match caps.exitStamp(test, lines[i])
    case None => Err(AttributeError)
    case Some(ts) =>
      if i + 1 == |lines| then Err(StopIteration)
      else match caps.cwnd(test, lines[i + 1])
        case None => Err(AttributeError)
        case Some(cwnd) => Ok(Exit(TypeLabel(test), ts, ts, cwnd))
  }

  function PicoquicResult(lines: seq<string>, caps: PicoquicCaptures): (r: Result<PicoquicReport>)
    ensures r == Ok(NotFound) <==> forall k | 0 <= k < |lines| :: !ExitLine(lines[k])
    ensures r.Err? ==> r.error in {AttributeError, StopIteration}
    ensures r.Ok? && r.value.Exit? ==>
      var i := FirstFrom(lines, 0, ExitLine).value;
      && i + 1 < |lines|
      && r.value.kind == TypeLabel(TestOf(lines[i]))
      && r.value.time2exit == r.value.tsExit
      && caps.exitStamp(TestOf(lines[i]), lines[i]) == Some(r.value.tsExit)
      && caps.cwnd(TestOf(lines[i]), lines[i + 1]) == Some(r.value.cwndExit)
  {
    match FirstFrom(lines, 0, ExitLine)
    case None => Ok(NotFound)
    case Some(i) => ExitReport(lines, i, caps)
  }

  /** The first line holding either test decides the report: with a parsable
      timestamp on it and a parsable window on the line after it, the report
      carries that test, timestamp and window; a timestamp or window that
      does not parse raises AttributeError, and no line after it
      StopIteration. */
  lemma PicoquicExitFound(lines: seq<string>, caps: PicoquicCaptures, i: nat)
    requires i < |lines| && ExitLine(lines[i]) && forall k | 0 <= k < i :: !ExitLine(lines[k])
    ensures var test := TestOf(lines[i]);
      var r := PicoquicResult(lines, caps);
      && (caps.exitStamp(test, lines[i]).None? ==> r == Err(AttributeError))
      && (caps.exitStamp(test, lines[i]).Some? && i + 1 == |lines| ==> r == Err(StopIteration))
      && (caps.exitStamp(test, lines[i]).Some? && i + 1 < |lines| && caps.cwnd(test, lines[i + 1]).None? ==>
            r == Err(AttributeError))
      && (caps.exitStamp(test, lines[i]).Some? && i + 1 < |lines| && caps.cwnd(test, lines[i + 1]).Some? ==>
            var ts := caps.exitStamp(test, lines[i]).value;
            r == Ok(Exit(TypeLabel(test), ts, ts, caps.cwnd(test, lines[i + 1]).value)))
  {
    var first := FirstFrom(lines, 0, ExitLine);
    assert first.Some? && first.value == i;
  }

  lemma TypeLabelsDiffer()
    ensures TypeLabel(DelayTest) != TypeLabel(LossTest)
  {
    assert TypeLabel(DelayTest)[17] != TypeLabel(LossTest)[17];
  }

  /** The report is a delay report exactly when the first line holding
      either test holds the delay test, even if it holds both. */
  lemma PicoquicDelayFirst(lines: seq<string>, caps: PicoquicCaptures)
    requires PicoquicResult(lines, caps).Ok? && PicoquicResult(lines, caps).value.Exit?
    ensures PicoquicResult(lines, caps).value.kind == TypeLabel(DelayTest)
        <==> exists i | 0 <= i < |lines| :: RetOne(lines[i], DelayTest)
               && forall k | 0 <= k < i :: !ExitLine(lines[k])
  {
    var i := FirstFrom(lines, 0, ExitLine).value;
    TypeLabelsDiffer();
    forall j | 0 <= j < |lines| && RetOne(lines[j], DelayTest) && forall k | 0 <= k < j :: !ExitLine(lines[k])
      ensures j == i
    {
      assert ExitLine(lines[j]);
    }
  }

  /** `evalPicoquic(setup)` on the lines of `setup`. */
  method EvalPicoquic(lines: seq<string>, caps: PicoquicCaptures) returns (r: Result<PicoquicReport>)
    ensures r == PicoquicResult(lines, caps)
  {
    var f := new LineFile(lines);
    while true
      invariant f.Valid()
      invariant FirstFrom(lines, 0, ExitLine) == FirstFrom(lines, f.pos, ExitLine)
      decreases |lines| - f.pos
    {
      var line := f.Next();
      if line.None? {
        return Ok(NotFound);
      }
      if RetOne(line.value, DelayTest) {
        r := ReportExit(f, DelayTest, caps);
        return;
      }
      if RetOne(line.value, LossTest) {
        r := ReportExit(f, LossTest, caps);
        return;
      }
    }
  }

  /** The body of a matching branch: capture the timestamp, `next(f)`,
      capture the window. */
  method ReportExit(f: LineFile, test: ExitTest, caps: PicoquicCaptures) returns (r: Result<PicoquicReport>)
    requires f.Valid() && 0 < f.pos && TestOf(f.lines[f.pos - 1]) == test
    modifies f
    ensures r == ExitReport(f.lines, old(f.pos) - 1, caps)
  {
    var tsExit := caps.exitStamp(test, f.lines[f.pos - 1]);
    if tsExit.None? {
      return Err(AttributeError);
    }
    var line := f.Next();
    if line.None? {
      return Err(StopIteration);
    }
    var cwndExit := caps.cwnd(test, line.value);
    if cwndExit.None? {
      return Err(AttributeError);
    }
    return Ok(Exit(TypeLabel(test), tsExit.value, tsExit.value, cwndExit.value));
  }

  // ---------------------------------------------------------------------
  // Linux dmesg: one row per HYSTART_DELAY line

  predicate DelayLine(line: string) { Contains(line, "HYSTART_DELAY") }

  predicate LossLine(line: string) { Contains(line, "HYSTART_LOSS") }

  /** `exitStamp` for `(\d+\.\d+)\] HYSTART_DELAY`, `cwnd` for
      `HYSTART_DELAY cwnd (\d+)`, `startStamp` for
      `(\d+\.\d+)\] HYSTART tcp_init_transfer`. */
  datatype LinuxCaptures = LinuxCaptures(exitStamp: string -> Option<real>, cwnd: string -> Option<nat>,
                                         startStamp: string -> Option<real>)

  datatype LinuxRow = LinuxRow(operator: string, tsStart: real, tsExit: real, time2exit: real, cwndExit: nat)

  /** The operator: the name with every `dmesg_` removed, up to the first '.'. */
  function LinuxOperator(file: string): string
  {
    Split(Remove(file, "dmesg_"), '.')[0]
  }

  /** `dmesg_<operator>.dmesg_log` names `operator`. */
  lemma LinuxOperatorOfName(operator: string)
    requires '.' !in operator && '_' !in operator
    ensures LinuxOperator("dmesg_" + operator + ".dmesg_log") == operator
  {
    var file := "dmesg_" + operator + ".dmesg_log";
    var rest := operator + "." + "dmesg_" + "log";
    assert file == "dmesg_" + rest;
    assert StartsWith(file, "dmesg_") && file[6..] == rest;
    RemoveSingle(operator + ".", "dmesg_", "log");
    RemoveNoLast("log", "dmesg_");
    SplitAtFirst(operator, '.', "log");
  }

  /** The rows from line `pos` on. A delay line gives a row and consumes the
      line after it, which is then the one checked for HYSTART_LOSS; a loss
      line fails the script's `assert False`. */
  function LinuxFrom(lines: seq<string>, pos: nat, operator: string, caps: LinuxCaptures): (r: Result<seq<LinuxRow>>)
    ensures r.Err? ==> r.error in {AttributeError, StopIteration, AssertionError}
    decreases |lines| - pos
  {
    if pos >= |lines| then Ok([])
    else if DelayLine(lines[pos]) then
      match caps.exitStamp(lines[pos])
      case None => Err(AttributeError)
      case Some(tsExit) =>
        match caps.cwnd(lines[pos])
        case None => Err(AttributeError)
        case Some(cwnd) =>
          if pos + 1 == |lines| then Err(StopIteration)
          else match caps.startStamp(lines[pos + 1])
            case None => Err(AttributeError)
            case Some(tsStart) =>
              if LossLine(lines[pos + 1]) then Err(AssertionError)
              else
                var rest :- LinuxFrom(lines, pos + 2, operator, caps);
                Ok([LinuxRow(operator, tsStart, tsExit, tsExit - tsStart, cwnd)] + rest)
    else if LossLine(lines[pos]) then Err(AssertionError)
    else LinuxFrom(lines, pos + 1, operator, caps)
  }

  /** No HYSTART_LOSS line is passed without failing, and each row carries
      the file's operator and `time2exit = tsExit - tsStart`, from a delay
      line whose next line gives `tsStart`. */
  lemma {:induction false} LinuxFromSpec(lines: seq<string>, pos: nat, operator: string, caps: LinuxCaptures)
    ensures var r := LinuxFrom(lines, pos, operator, caps);
      r.Ok? ==> forall k | pos <= k < |lines| :: LossLine(lines[k]) ==> DelayLine(lines[k])
    ensures var r := LinuxFrom(lines, pos, operator, caps);
      r.Ok? ==> forall j | 0 <= j < |r.value| ::
        && r.value[j].operator == operator
        && r.value[j].time2exit == r.value[j].tsExit - r.value[j].tsStart
        && exists k | pos <= k < |lines| - 1 ::
          && DelayLine(lines[k])
          && caps.exitStamp(lines[k]) == Some(r.value[j].tsExit)
          && caps.cwnd(lines[k]) == Some(r.value[j].cwndExit)
          && caps.startStamp(lines[k + 1]) == Some(r.value[j].tsStart)
    decreases |lines| - pos
  {
    if pos < |lines| {
      if DelayLine(lines[pos]) {
        LinuxFromSpec(lines, pos + 2, operator, caps);
      } else {
        LinuxFromSpec(lines, pos + 1, operator, caps);
      }
    }
  }

  /** The number of delay lines from `pos` on. */
  function DelayCount(lines: seq<string>, pos: nat): nat
    decreases |lines| - pos
  {
    if pos >= |lines| then 0 else (if DelayLine(lines[pos]) then 1 else 0) + DelayCount(lines, pos + 1)
  }

  /** When no two delay lines are adjacent, every delay line gives exactly
      one row. */
  lemma {:induction false} RowPerDelayLine(lines: seq<string>, pos: nat, operator: string, caps: LinuxCaptures)
    requires forall k | pos <= k < |lines| - 1 :: !(DelayLine(lines[k]) && DelayLine(lines[k + 1]))
    ensures LinuxFrom(lines, pos, operator, caps).Ok? ==>
      |LinuxFrom(lines, pos, operator, caps).value| == DelayCount(lines, pos)
    decreases |lines| - pos
  {
    if pos < |lines| {
      if DelayLine(lines[pos]) {
        if pos + 1 < |lines| {
          RowPerDelayLine(lines, pos + 2, operator, caps);
          assert DelayCount(lines, pos + 1) == DelayCount(lines, pos + 2);
        }
      } else {
        RowPerDelayLine(lines, pos + 1, operator, caps);
      }
    }
  }

  /** `res` grown by `rows`, or the failure that ended the loop. */
  function Prefixed(res: seq<LinuxRow>, rows: Result<seq<LinuxRow>>): Result<seq<LinuxRow>>
  {
    match rows
    case Ok(v) => Ok(res + v)
    case Err(e) => Err(e)
  }

  /** The body of `evalLinuxHystart`'s file loop. */
  method EvalLinuxFile(file: string, lines: seq<string>, caps: LinuxCaptures) returns (r: Result<seq<LinuxRow>>)
    ensures r == LinuxFrom(lines, 0, LinuxOperator(file), caps)
  {
    var operator := LinuxOperator(file);
    var f := new LineFile(lines);
    var res: seq<LinuxRow> := [];
    PrefixedEmpty(LinuxFrom(lines, 0, operator, caps));
    while true
      invariant f.Valid()
      invariant LinuxFrom(lines, 0, operator, caps) == Prefixed(res, LinuxFrom(lines, f.pos, operator, caps))
      decreases |lines| - f.pos
    {
      ghost var at := f.pos;
      ghost var before := Prefixed(res, LinuxFrom(lines, at, operator, caps));
      var next := f.Next();
      if next.None? {
        assert LinuxFrom(lines, at, operator, caps) == Ok([]);
        assert res + [] == res;
        return Ok(res);
      }
      var line := next.value;
      if DelayLine(line) {
        LinuxFromDelay(lines, at, operator, caps);
        var tsExit := caps.exitStamp(line);
        if tsExit.None? {
          return Err(AttributeError);
        }
        var cwnd := caps.cwnd(line);
        if cwnd.None? {
          return Err(AttributeError);
        }
        var after := f.Next();
        if after.None? {
          return Err(StopIteration);
        }
        line := after.value;
        var tsStart := caps.startStamp(line);
        if tsStart.None? {
          return Err(AttributeError);
        }
        var row := LinuxRow(operator, tsStart.value, tsExit.value, tsExit.value - tsStart.value, cwnd.value);
        PrefixedStep(res, row, lines, at, operator, caps);
        res := res + [row];
      } else {
        LinuxFromOther(lines, at, operator, caps);
      }
      if LossLine(line) {
        return Err(AssertionError);
      }
      assert Prefixed(res, LinuxFrom(lines, f.pos, operator, caps)) == before;
    }
  }

  /** How the rows from a delay line on end when that line's step fails. */
  lemma LinuxFromDelay(lines: seq<string>, pos: nat, operator: string, caps: LinuxCaptures)
    requires pos < |lines| && DelayLine(lines[pos])
    ensures var r := LinuxFrom(lines, pos, operator, caps);
      && (caps.exitStamp(lines[pos]).None? || caps.cwnd(lines[pos]).None? ==> r == Err(AttributeError))
      && (caps.exitStamp(lines[pos]).Some? && caps.cwnd(lines[pos]).Some? ==>
            && (pos + 1 == |lines| ==> r == Err(StopIteration))
            && (pos + 1 < |lines| && caps.startStamp(lines[pos + 1]).None? ==> r == Err(AttributeError))
            && (pos + 1 < |lines| && caps.startStamp(lines[pos + 1]).Some? && LossLine(lines[pos + 1]) ==>
                  r == Err(AssertionError)))
  {
  }

  /** Any other line is skipped, unless it reports a loss. */
  lemma LinuxFromOther(lines: seq<string>, pos: nat, operator: string, caps: LinuxCaptures)
    requires pos < |lines| && !DelayLine(lines[pos])
    ensures LossLine(lines[pos]) ==> LinuxFrom(lines, pos, operator, caps) == Err(AssertionError)
    ensures !LossLine(lines[pos]) ==> LinuxFrom(lines, pos, operator, caps) == LinuxFrom(lines, pos + 1, operator, caps)
  {
  }

  lemma PrefixedEmpty(rows: Result<seq<LinuxRow>>)
    ensures Prefixed([], rows) == rows
  {
    if rows.Ok? {
      assert [] + rows.value == rows.value;
    }
  }

  lemma PrefixedStep(res: seq<LinuxRow>, row: LinuxRow, lines: seq<string>, pos: nat, operator: string, caps: LinuxCaptures)
    requires pos + 1 < |lines| && DelayLine(lines[pos])
    requires caps.exitStamp(lines[pos]).Some? && caps.cwnd(lines[pos]).Some? && caps.startStamp(lines[pos + 1]).Some?
    requires row == LinuxRow(operator, caps.startStamp(lines[pos + 1]).value, caps.exitStamp(lines[pos]).value,
                             caps.exitStamp(lines[pos]).value - caps.startStamp(lines[pos + 1]).value,
                             caps.cwnd(lines[pos]).value)
    ensures !LossLine(lines[pos + 1]) ==>
      Prefixed(res, LinuxFrom(lines, pos, operator, caps))
        == Prefixed(res + [row], LinuxFrom(lines, pos + 2, operator, caps))
  {
    var rest := LinuxFrom(lines, pos + 2, operator, caps);
    if !LossLine(lines[pos + 1]) && rest.Ok? {
      assert res + ([row] + rest.value) == res + [row] + rest.value;
    }
  }

  /** `res` after the file loop of `evalLinuxHystart`. */
  function LinuxRows(files: seq<LogFile>, caps: LinuxCaptures): (r: Result<seq<LinuxRow>>)
    ensures r.Ok? ==> forall row | row in r.value :: row.time2exit == row.tsExit - row.tsStart
    decreases |files|
  {
    if files == [] then Ok([])
    else
      var last := files[|files| - 1];
      var rows :- LinuxRows(files[..|files| - 1], caps);
      var more :- LinuxFrom(last.lines, 0, LinuxOperator(last.name), caps);
      LinuxFromSpec(last.lines, 0, LinuxOperator(last.name), caps);
      assert forall j | 0 <= j < |more| :: more[j].time2exit == more[j].tsExit - more[j].tsStart;
      Ok(rows + more)
  }

  /** A file that raises ends the run with its error. */
  lemma {:induction false} LinuxRowsFailureSticks(files: seq<LogFile>, i: nat, caps: LinuxCaptures)
    requires i <= |files| && LinuxRows(files[..i], caps).Err?
    ensures LinuxRows(files, caps) == LinuxRows(files[..i], caps)
    decreases |files|
  {
    if i < |files| {
      var front := files[..|files| - 1];
      assert front[..i] == files[..i];
      LinuxRowsFailureSticks(front, i, caps);
    } else {
      assert files[..i] == files;
    }
  }

  function LinuxOperatorOf(row: LinuxRow): string { row.operator }

  /** `evalLinuxHystart` up to the plots. */
  method EvalLinuxHystart(files: seq<LogFile>, caps: LinuxCaptures) returns (r: Result<seq<LinuxRow>>)
    ensures r == (var rows :- LinuxRows(files, caps); ByOperator(rows, LinuxOperatorOf))
  {
    var res: seq<LinuxRow> := [];
    for i := 0 to |files|
      invariant LinuxRows(files[..i], caps) == Ok(res)
    {
      assert files[..i + 1][..i] == files[..i];
      var more := EvalLinuxFile(files[i].name, files[i].lines, caps);
      if more.Err? {
        LinuxRowsFailureSticks(files, i + 1, caps);
        return Err(more.error);
      }
      res := res + more.value;
    }
    assert files[..|files|] == files;
    r := ByOperator(res, LinuxOperatorOf);
  }
}
