/** The transmission-duration evaluator: every `.qlog` or `.sqlog` file named
    on the command line contributes at most one row (provider, congestion
    control, object size in bytes, duration), prepended to a global table.
    File contents arrive already split into lines; decoding JSON is the
    caller's partial decoder. */
module VostdEval {
  import opened Outcomes
  import opened Strings
  import opened Json

  // ---------------------------------------------------------------------
  // File names and sizes

  /** The three parts `process_file_name` extracts from a trial file name. */
  datatype NameFields = NameFields(provider: string, size: string, algorithm: string)

  /** `process_file_name`: provider and algorithm are the first and third
      '_' fields of the base name's text before its first '.'; the size is
      the base name's second '.' field.  Missing fields raise IndexError. */
  function ProcessFileName(file: string): (r: Result<NameFields>)
    ensures r.Ok? <==> |Split(Split(Basename(file), '.')[0], '_')| >= 3 && |Split(Basename(file), '.')| >= 2
    ensures r.Err? ==> r.error == IndexError
    ensures r.Ok? ==> '_' !in r.value.provider && '.' !in r.value.provider && '/' !in r.value.provider
    ensures r.Ok? ==> '_' !in r.value.algorithm && '.' !in r.value.algorithm && '/' !in r.value.algorithm
    ensures r.Ok? ==> '.' !in r.value.size && '/' !in r.value.size
  {
    var base := Basename(file);
    var stem := Split(base, '.')[0];
    var provider := Split(stem, '_')[0];
    var algorithm :- At(Split(stem, '_'), 2);
    var size :- At(Split(base, '.'), 1);
    SplitFieldsExclude(base, '.', '/');
    SplitFieldsExclude(stem, '_', '/');
    SplitFieldsExclude(stem, '_', '.');
    Ok(NameFields(provider, size, algorithm))
  }

  lemma SplitFieldsExclude(s: string, sep: char, c: char)
    requires c !in s
    ensures forall k | 0 <= k < |Split(s, sep)| :: c !in Split(s, sep)[k]
    decreases |s|
  {
    if sep in s {
      var i := IndexOf(s, sep);
      SplitFieldsExclude(s[i + 1..], sep, c);
    }
  }

  /** A base name `stem.size<tail>` splits at '.' into the stem, the size
      and whatever the tail adds. */
  lemma SplitOfTemplate(stem: string, size: string, tail: string)
    requires '.' !in stem && '.' !in size && (tail == [] || tail[0] == '.')
    ensures |Split(stem + "." + size + tail, '.')| >= 2
    ensures Split(stem + "." + size + tail, '.')[0] == stem
    ensures Split(stem + "." + size + tail, '.')[1] == size
  {
    assert stem + "." + size + tail == stem + ['.'] + (size + tail);
    SplitAtFirst(stem, '.', size + tail);
    SplitPieceHead(size, '.', tail);
  }

  /** A piece followed by nothing or by a separator is the first piece. */
  lemma SplitPieceHead(a: string, sep: char, tail: string)
    requires sep !in a && (tail == [] || tail[0] == sep)
    ensures Split(a + tail, sep)[0] == a
  {
    if tail == [] {
      assert a + tail == a;
    } else {
      assert a + tail == a + [sep] + tail[1..];
      SplitAtFirst(a, sep, tail[1..]);
    }
  }

  /** A name `dir/f0_f1_..._fn.size<tail>` (at least three '_' fields, none
      holding '_', '.' or '/'; a size without '.' or '/'; a tail that is empty
      or starts a further '.' field) names provider `f0`, algorithm `f2` and
      that size. */
  lemma ProcessFileNameOfTemplate(dir: string, fields: seq<string>, size: string, tail: string)
    requires |fields| >= 3
    requires forall k | 0 <= k < |fields| :: '_' !in fields[k] && '.' !in fields[k] && '/' !in fields[k]
    requires '.' !in size && '/' !in size && '/' !in tail && (tail == [] || tail[0] == '.')
    ensures var name := Join(fields, '_') + "." + size + tail;
      ProcessFileName(dir + "/" + name) == Ok(NameFields(fields[0], size, fields[2]))
  {
    var stem := Join(fields, '_');
    var name := stem + "." + size + tail;
    var file := dir + "/" + name;
    JoinExcludes(fields, '_', '/');
    JoinExcludes(fields, '_', '.');
    BasenameOfPath(dir, name);
    SplitOfTemplate(stem, size, tail);
    SplitJoin(fields, '_');
    ProcessFileNameOfFields(file, name, stem, fields, size);
  }

  lemma ProcessFileNameOfFields(file: string, base: string, stem: string, fields: seq<string>, size: string)
    requires Basename(file) == base
    requires |Split(base, '.')| >= 2 && Split(base, '.')[0] == stem && Split(base, '.')[1] == size
    requires Split(stem, '_') == fields && |fields| >= 3
    ensures ProcessFileName(file) == Ok(NameFields(fields[0], size, fields[2]))
  {
  }

  /** The unit table of `size_to_bytes`. */
  function UnitFactor(unit: string): (r: Result<nat>)
    ensures r.Ok? <==> unit in {"KB", "MB", "GB"}
    ensures r.Err? ==> r.error == KeyError
  {
    if unit == "KB" then Ok(1000)
    else if unit == "MB" then Ok(1000000)
    else if unit == "GB" then Ok(1000000000)
    else Err(KeyError)
  }

  /** `size_to_bytes`: `int` of all but the last two characters (ValueError
      first), times the decimal factor the last two name (KeyError). */
  function SizeToBytes(size: string): (r: Result<int>)
    ensures r.Ok? <==> PyInt(DropLast(size, 2)).Ok? && UnitFactor(TakeLast(size, 2)).Ok?
    ensures PyInt(DropLast(size, 2)).Err? ==> r == Err(ValueError)
    ensures r.Ok? ==> r.value == PyInt(DropLast(size, 2)).value * UnitFactor(TakeLast(size, 2)).value
  {
    var num :- PyInt(DropLast(size, 2));
    var factor :- UnitFactor(TakeLast(size, 2));
    Ok(num * factor)
  }

  /** `N` followed by KB, MB or GB is N·10³, N·10⁶ or N·10⁹ bytes. */
  lemma SizeToBytesOfUnit(n: nat, unit: string)
    requires unit in {"KB", "MB", "GB"}
    ensures SizeToBytes(NatToString(n) + unit)
         == Ok(n * (if unit == "KB" then 1000 else if unit == "MB" then 1000000 else 1000000000))
  {
    var s := NatToString(n) + unit;
    assert DropLast(s, 2) == NatToString(n);
    assert TakeLast(s, 2) == unit;
    NatToStringValue(n);
  }

  /** An unknown unit raises KeyError once the number parses. */
  lemma SizeToBytesUnknownUnit(n: nat, unit: string)
    requires |unit| == 2 && unit !in {"KB", "MB", "GB"}
    ensures SizeToBytes(NatToString(n) + unit) == Err(KeyError)
  {
    var s := NatToString(n) + unit;
    assert DropLast(s, 2) == NatToString(n);
    assert TakeLast(s, 2) == unit;
    NatToStringValue(n);
  }

  // ---------------------------------------------------------------------
  // Rows

  /** One row of the table: Provider, Type (the congestion controller),
      Object size in bytes and Duration. */
  datatype DurationRow = DurationRow(provider: string, kind: string, objectSize: int, duration: real)

  /** `pd.concat([new, df])`: a produced row goes in front. */
  function Prepend(row: Option<DurationRow>, rows: seq<DurationRow>): (r: seq<DurationRow>)
    ensures row.Some? ==> r == [row.value] + rows
    ensures row.None? ==> r == rows
  {
    match row
    case Some(x) => [x] + rows
    case None => rows
  }

  // ---------------------------------------------------------------------
  // Array-form qlog

  /** The duration `process_qlog` reads off a document: the first field of
      the second-to-last event minus that of the first event
      (`events[len - 2]` wraps to the last event when there is only one). */
  function QlogDuration(doc: Value): (r: Result<real>)
  {
    var events :- EventsOf(doc);
    var first :- Item(events, 0);
    var start :- Item(first, 0);
    // a list or string once events[0] exists, so events[n - 2] is in range
    var n := Length(events).value;
    var last := Item(events, n - 2).value;
    var end :- Item(last, 0);
    Minus(end, start)
  }

  /** `d` is the first field of the second-to-last (or only) event minus
      that of the first, both fields being numbers. */
  predicate EventsSpan(events: seq<Value>, d: real)
  {
    && 0 < |events|
    && var last := if |events| >= 2 then |events| - 2 else 0;
       && Item(events[0], 0).Ok? && Item(events[last], 0).Ok?
       && Minus(Item(events[last], 0).value, Item(events[0], 0).value) == Ok(d)
  }

  /** A duration is read only from a non-empty list of events, as the
      difference between the first field of the second-to-last (or only)
      event and that of the first; an empty event list raises IndexError and
      a dict of events KeyError, as a dict has no key 0. */
  lemma QlogDurationSpec(doc: Value)
    ensures QlogDuration(doc).Ok? ==>
      && EventsOf(doc).Ok? && EventsOf(doc).value.Arr?
      && EventsSpan(EventsOf(doc).value.items, QlogDuration(doc).value)
    ensures EventsOf(doc) == Ok(Arr([])) ==> QlogDuration(doc) == Err(IndexError)
    ensures EventsOf(doc).Ok? && EventsOf(doc).value.Obj? ==> QlogDuration(doc) == Err(KeyError)
  {
    if QlogDuration(doc).Ok? {
      var ev := EventsOf(doc).value;
      var events := ev.items;
      var last := if |events| >= 2 then |events| - 2 else 0;
      assert Item(ev, |events| - 2) == Ok(events[last]);
    }
  }

  /** `process_qlog`: after the name parse, an undecodable document adds no
      row; otherwise the size is converted and the duration read off the
      events. */
  function QlogRow(file: string, text: string, decode: Decoder): (r: Result<Option<DurationRow>>)
    ensures ProcessFileName(file).Err? ==> r == Err(IndexError)
    ensures ProcessFileName(file).Ok? && decode(text).None? ==> r == Ok(None)
    ensures r.Ok? ==> (r.value.Some? <==> decode(text).Some?)
  {
    var fields :- ProcessFileName(file);
    match decode(text)
    case None => Ok(None)
    case Some(doc) =>
      var bytes :- SizeToBytes(fields.size);
      var duration :- QlogDuration(doc);
      Ok(Some(DurationRow(fields.provider, fields.algorithm, bytes, duration)))
  }

  /** The row of a readable qlog: provider and type from the name, the size
      in bytes, and the first-field difference between the second-to-last
      (or only) event and the first. */
  lemma QlogRowSpec(file: string, text: string, decode: Decoder)
    requires QlogRow(file, text, decode).Ok? && QlogRow(file, text, decode).value.Some?
    ensures ProcessFileName(file).Ok? && decode(text).Some?
    ensures var row := QlogRow(file, text, decode).value.value;
      var fields := ProcessFileName(file).value;
      var ev := EventsOf(decode(text).value);
      && row.provider == fields.provider
      && row.kind == fields.algorithm
      && SizeToBytes(fields.size) == Ok(row.objectSize)
      && ev.Ok? && ev.value.Arr? && EventsSpan(ev.value.items, row.duration)
  {
    QlogDurationSpec(decode(text).value);
  }

  /** A qlog whose trace has an empty event list raises IndexError; one whose
      events are a dict raises KeyError. */
  lemma QlogWithoutEvents(file: string, text: string, decode: Decoder)
    requires ProcessFileName(file).Ok? && decode(text).Some?
    requires SizeToBytes(ProcessFileName(file).value.size).Ok?
    requires EventsOf(decode(text).value).Ok?
    ensures EventsOf(decode(text).value).value == Arr([]) ==> QlogRow(file, text, decode) == Err(IndexError)
    ensures EventsOf(decode(text).value).value.Obj? ==> QlogRow(file, text, decode) == Err(KeyError)
  {
    QlogDurationSpec(decode(text).value);
  }

  // ---------------------------------------------------------------------
  // Stream-form sqlog

  const PacketReceived := "transport:packet_received"
  const ConnectionClose := "connection_close"

  /** `qlog_loaded['data']['frames']`, as iterated. */
  function FramesOf(record: Value): (r: Result<seq<Value>>)
    ensures r.Ok? ==> record.Obj?
  {
    var data :- Get(record, "data");
    var frames :- Get(data, "frames");
    Elements(frames)
  }

  /** The frames iterated are those of `record['data']['frames']`: the items
      when it is a list; a missing key raises KeyError and a `record` or
      `data` that is not a dict, or `frames` that is not iterable, TypeError. */
  lemma FramesOfSpec(record: Value)
    ensures FramesOf(record).Ok? <==>
      && Get(record, "data").Ok? && Get(Get(record, "data").value, "frames").Ok?
      && Elements(Get(Get(record, "data").value, "frames").value).Ok?
    ensures FramesOf(record).Ok? ==> FramesOf(record) == Elements(Get(Get(record, "data").value, "frames").value)
    ensures FramesOf(record).Ok? && Get(Get(record, "data").value, "frames").value.Arr? ==>
      FramesOf(record).value == Get(Get(record, "data").value, "frames").value.items
    ensures FramesOf(record).Err? ==> FramesOf(record).error in {KeyError, TypeError}
  {
    GetSpec(record, "data");
    if Get(record, "data").Ok? {
      GetSpec(Get(record, "data").value, "frames");
    }
  }

  predicate IsCloseFrame(frame: Value)
  {
    Get(frame, "frame_type") == Ok(Str(ConnectionClose))
  }

  /** A record that sets `connection_end`: a packet_received event with at
      least one connection_close frame. */
  predicate ClosesConnection(record: Value)
  {
    && Get(record, "name") == Ok(Str(PacketReceived))
    && FramesOf(record).Ok?
    && exists i | 0 <= i < |FramesOf(record).value| :: IsCloseFrame(FramesOf(record).value[i])
  }

  /** The inner frame loop: every connection_close frame reads `record['time']`;
      a frame without `frame_type` raises KeyError. */
  function CloseTimeOfFrames(record: Value, frames: seq<Value>): Result<Option<Value>>
  {
    if frames == [] then Ok(None)
    else
      var n := |frames| - 1;
      var prev :- CloseTimeOfFrames(record, frames[..n]);
      var kind :- Get(frames[n], "frame_type");
      if kind == Str(ConnectionClose) then
        var time :- Get(record, "time");
        Ok(Some(time))
      else
        Ok(prev)
  }

  /** When the frame loop completes, a time is taken iff some frame is a
      connection_close frame, and that time is the record's `time`. */
  lemma {:induction false} CloseTimeOfFramesSpec(record: Value, frames: seq<Value>)
    ensures var r := CloseTimeOfFrames(record, frames);
      r.Ok? ==> (r.value.Some? <==> exists i | 0 <= i < |frames| :: IsCloseFrame(frames[i]))
    ensures var r := CloseTimeOfFrames(record, frames);
      r.Ok? && r.value.Some? ==> Get(record, "time") == Ok(r.value.value)
  {
    var r := CloseTimeOfFrames(record, frames);
    if frames != [] && r.Ok? {
      var n := |frames| - 1;
      var init := frames[..n];
      CloseTimeOfFramesSpec(record, init);
      assert forall i | 0 <= i < n :: init[i] == frames[i];
      if IsCloseFrame(frames[n]) {
        assert r.value.Some?;
      } else {
        assert r == CloseTimeOfFrames(record, init);
      }
    }
  }

  /** What one decoded record does to `connection_end`: `Some(time)` when it
      closes the connection, `None` when it leaves it alone. */
  function RecordCloseTime(record: Value): (r: Result<Option<Value>>)
    ensures r.Ok? && r.value.Some? ==> record.Obj?
  {
    var hasName :- HasKey(record, "name");
    if !hasName then Ok(None)
    else
      var name :- Get(record, "name");
      if name != Str(PacketReceived) then Ok(None)
      else
        var frames :- FramesOf(record);
        CloseTimeOfFrames(record, frames)
  }

  /** A record sets `connection_end` exactly when it closes the connection,
      and then to its `time`. */
  lemma RecordCloseTimeSpec(record: Value)
    requires RecordCloseTime(record).Ok?
    ensures RecordCloseTime(record).value.Some? <==> ClosesConnection(record)
    ensures RecordCloseTime(record).value.Some? ==> Get(record, "time") == Ok(RecordCloseTime(record).value.value)
  {
    var frames := FramesOf(record);
    if frames.Ok? {
      CloseTimeOfFramesSpec(record, frames.value);
    }
  }

  /** The record on one line: one leading U+001E is dropped (an empty line
      raises IndexError), then the decoder runs on the rest. */
  function LineRecord(line: string, decode: Decoder): (r: Result<Option<Value>>)
    ensures r.Ok? <==> line != []
    ensures line != [] && line[0] == RecordSeparator ==> r == Ok(decode(line[1..]))
    ensures line != [] && line[0] != RecordSeparator ==> r == Ok(decode(line))
  {
    var c :- At(line, 0);
    Ok(decode(if c == RecordSeparator then line[1..] else line))
  }

  const RecordSeparator: char := '\U{1E}'

  /** The state of the sqlog line loop: either the file was abandoned at an
      undecodable line, or the loop goes on with the bound (or still unbound)
      `bytesize` and `connection_end`. */
  datatype SqlogScan = Abandoned | Scanning(bytes: Option<int>, end: Option<Value>)

  /** What one line does to the loop: an error, `None` when its record does
      not decode (the file is abandoned), or the converted size together with
      the record's update of `connection_end`. */
  type LineEffect = Result<Option<(int, Option<Value>)>>

  function LineEffectOf(size: string, line: string, decode: Decoder): (r: LineEffect)
    ensures r.Ok? && r.value.Some? ==>
      && LineRecord(line, decode).Ok? && LineRecord(line, decode).value.Some?
      && SizeToBytes(size) == Ok(r.value.value.0)
      && RecordCloseTime(LineRecord(line, decode).value.value) == Ok(r.value.value.1)
    ensures r == Ok(None) <==> LineRecord(line, decode) == Ok(None)
  {
    var record :- LineRecord(line, decode);
    match record
    case None => Ok(None)
    case Some(rec) =>
      var bytes :- SizeToBytes(size);
      var close :- RecordCloseTime(rec);
      Ok(Some((bytes, close)))
  }

  /** A line after which the loop goes on. */
  predicate Continues(e: LineEffect) { e.Ok? && e.value.Some? }

  /** A line that sets `connection_end`. */
  predicate Closes(e: LineEffect) { Continues(e) && e.value.value.1.Some? }

  /** One iteration of the line loop. */
  function Step(prev: SqlogScan, effect: LineEffect): (r: Result<SqlogScan>)
    requires prev.Scanning?
  {
    var e :- effect;
    match e
    case None => Ok(Abandoned)
    case Some((bytes, close)) => Ok(Scanning(Some(bytes), if close.Some? then close else prev.end))
  }

  /** The line loop over the effects of the lines read so far. */
  function Scan(effects: seq<LineEffect>): (r: Result<SqlogScan>)
  {
    if effects == [] then Ok(Scanning(None, None))
    else
      var prev :- Scan(effects[..|effects| - 1]);
      if prev.Abandoned? then Ok(Abandoned)
      else Step(prev, effects[|effects| - 1])
  }

  function Effects(size: string, lines: seq<string>, decode: Decoder): (es: seq<LineEffect>)
    ensures |es| == |lines|
    ensures forall i | 0 <= i < |lines| :: es[i] == LineEffectOf(size, lines[i], decode)
  {
    seq(|lines|, i requires 0 <= i < |lines| => LineEffectOf(size, lines[i], decode))
  }

  /** The line loop of `process_sqlog` over a file's lines. */
  function ScanLines(size: string, lines: seq<string>, decode: Decoder): Result<SqlogScan>
  {
    Scan(Effects(size, lines, decode))
  }

  /** Effect `k` is the last one that sets `connection_end`. */
  predicate LastClosing(effects: seq<LineEffect>, k: int)
  {
    0 <= k < |effects| && Closes(effects[k]) && forall j | k < j < |effects| :: !Closes(effects[j])
  }

  /** While the loop goes on, every line read so far was decoded, `bytesize`
      is bound (to the last line's conversion) exactly when there was a line. */
  lemma {:induction false} ScanContinues(effects: seq<LineEffect>)
    requires Scan(effects).Ok? && Scan(effects).value.Scanning?
    ensures forall i | 0 <= i < |effects| :: Continues(effects[i])
    ensures Scan(effects).value.bytes.Some? <==> effects != []
    ensures effects != [] ==> Scan(effects).value.bytes == Some(effects[|effects| - 1].value.value.0)
  {
    if effects != [] {
      var n := |effects| - 1;
      var init := effects[..n];
      ScanContinues(init);
      assert forall i | 0 <= i < n :: init[i] == effects[i];
    }
  }

  /** A loop still going after one more line was going before it, and that
      line was decoded; it rebinds `connection_end` only if it closes. */
  lemma ScanLast(effects: seq<LineEffect>)
    requires effects != [] && Scan(effects).Ok? && Scan(effects).value.Scanning?
    ensures var init, last := effects[..|effects| - 1], effects[|effects| - 1];
      && Scan(init).Ok? && Scan(init).value.Scanning?
      && Continues(last)
      && Scan(effects).value.end == (if Closes(last) then last.value.value.1 else Scan(init).value.end)
  {
  }

  /** While the loop goes on, `connection_end` is bound exactly when some line
      set it, and then holds what the last such line set. */
  lemma {:induction false} ScanEnd(effects: seq<LineEffect>)
    requires Scan(effects).Ok? && Scan(effects).value.Scanning?
    ensures Scan(effects).value.end.Some? <==> exists i | 0 <= i < |effects| :: Closes(effects[i])
    ensures Scan(effects).value.end.Some? ==>
      exists k | 0 <= k < |effects| :: LastClosing(effects, k) && Scan(effects).value.end == effects[k].value.value.1
  {
    if effects != [] {
      var n := |effects| - 1;
      var init := effects[..n];
      ScanLast(effects);
      ScanEnd(init);
      assert forall i | 0 <= i < n :: init[i] == effects[i];
      var st := Scan(effects).value;
      if Closes(effects[n]) {
        assert LastClosing(effects, n);
      } else if st.end.Some? {
        var k :| 0 <= k < n && LastClosing(init, k) && Scan(init).value.end == init[k].value.value.1;
        assert LastClosing(effects, k);
      }
    }
  }

  /** Once the loop has stopped, with an error or by abandoning the file,
      later lines change nothing. */
  lemma {:induction false} ScanPrefixStops(effects: seq<LineEffect>, i: nat)
    requires i <= |effects|
    requires !(Scan(effects[..i]).Ok? && Scan(effects[..i]).value.Scanning?)
    ensures Scan(effects) == Scan(effects[..i])
    decreases |effects| - i
  {
    if i < |effects| {
      var next := effects[..i + 1];
      assert next[..i] == effects[..i];
      ScanPrefixStops(effects, i + 1);
    } else {
      assert effects[..i] == effects;
    }
  }

  lemma EffectsPrefix(size: string, lines: seq<string>, i: nat, decode: Decoder)
    requires i <= |lines|
    ensures Effects(size, lines[..i], decode) == Effects(size, lines, decode)[..i]
  {
  }

  /** A line whose record is decoded and sets `connection_end`. */
  predicate LineCloses(line: string, decode: Decoder)
  {
    && LineRecord(line, decode).Ok? && LineRecord(line, decode).value.Some?
    && RecordCloseTime(LineRecord(line, decode).value.value).Ok?
    && RecordCloseTime(LineRecord(line, decode).value.value).value.Some?
  }

  /** The time a closing line sets. */
  function CloseTime(line: string, decode: Decoder): (t: Value)
    requires LineCloses(line, decode)
    ensures ClosesConnection(LineRecord(line, decode).value.value)
    ensures Get(LineRecord(line, decode).value.value, "time") == Ok(t)
  {
    RecordCloseTimeSpec(LineRecord(line, decode).value.value);
    RecordCloseTime(LineRecord(line, decode).value.value).value.value
  }

  /** Line `k` is the last line that closes the connection, at time `t`. */
  predicate LastCloseAt(lines: seq<string>, k: int, t: Value, decode: Decoder)
  {
    && 0 <= k < |lines|
    && LineCloses(lines[k], decode)
    && CloseTime(lines[k], decode) == t
    && forall j | k < j < |lines| :: !LineCloses(lines[j], decode)
  }

  /** In terms of lines: the effect that set `connection_end` last belongs to
      the last line that closes the connection. */
  lemma LastClosingLine(size: string, lines: seq<string>, k: nat, decode: Decoder)
    requires forall i | 0 <= i < |lines| :: Continues(Effects(size, lines, decode)[i])
    requires LastClosing(Effects(size, lines, decode), k)
    ensures LastCloseAt(lines, k, Effects(size, lines, decode)[k].value.value.1.value, decode)
  {
    var es := Effects(size, lines, decode);
    forall j | k < j < |lines|
      ensures !LineCloses(lines[j], decode)
    {
      assert !Closes(es[j]);
    }
  }

  /** In terms of lines: with every line decoded, none closes the connection
      unless its effect says so. */
  lemma NoClosingLine(size: string, lines: seq<string>, decode: Decoder)
    requires forall i | 0 <= i < |lines| :: Continues(Effects(size, lines, decode)[i])
    requires forall i | 0 <= i < |lines| :: !Closes(Effects(size, lines, decode)[i])
    ensures forall i | 0 <= i < |lines| :: !LineCloses(lines[i], decode)
  {
    var es := Effects(size, lines, decode);
    forall i | 0 <= i < |lines|
      ensures !LineCloses(lines[i], decode)
    {
      assert !Closes(es[i]);
    }
  }

  /** `process_sqlog`: the line loop, then a row whose duration is
      `int(connection_end * 1000)` (the start is fixed at 0).  An abandoned
      file adds no row; a file that bound no `bytesize` or no
      `connection_end` raises UnboundLocalError. */
  function SqlogRow(file: string, lines: seq<string>, decode: Decoder): (r: Result<Option<DurationRow>>)
    ensures ProcessFileName(file).Err? ==> r == Err(IndexError)
    ensures r.Ok? && r.value.None? ==> ScanLines(ProcessFileName(file).value.size, lines, decode) == Ok(Abandoned)
  {
    var fields :- ProcessFileName(file);
    var st :- ScanLines(fields.size, lines, decode);
    RowOfScan(fields, st)
  }

  /** What `process_sqlog` makes of the state its line loop ends in. */
  function RowOfScan(fields: NameFields, st: SqlogScan): (r: Result<Option<DurationRow>>)
    ensures r == Ok(None) <==> st.Abandoned?
    ensures r.Err? ==> r.error in {UnboundLocalError, TypeError}
    ensures r.Ok? && r.value.Some? ==> st.bytes.Some? && r.value.value.objectSize == st.bytes.value
  {
    match st
    case Abandoned => Ok(None)
    case Scanning(bytes, end) =>
      if bytes.None? || end.None? then Err(UnboundLocalError)
      else
        match NumberOf(end.value)
        case None => Err(TypeError)
        case Some(t) =>
          Ok(Some(DurationRow(fields.provider, fields.algorithm, bytes.value, Trunc(t * 1000.0) as real)))
  }

  /** The row of a completed sqlog: provider and type from the name, the
      size in bytes, and `int(1000 * t)` for the time `t` of the last line
      that closes the connection. */
  lemma SqlogRowSpec(file: string, lines: seq<string>, decode: Decoder)
    requires SqlogRow(file, lines, decode).Ok? && SqlogRow(file, lines, decode).value.Some?
    ensures var row := SqlogRow(file, lines, decode).value.value;
      var fields := ProcessFileName(file).value;
      && row.provider == fields.provider
      && row.kind == fields.algorithm
      && SizeToBytes(fields.size) == Ok(row.objectSize)
      && exists k, t :: LastCloseAt(lines, k, t, decode) && NumberOf(t).Some?
           && row.duration == Trunc(NumberOf(t).value * 1000.0) as real
  {
    var fields := ProcessFileName(file).value;
    var es := Effects(fields.size, lines, decode);
    ScanContinues(es);
    ScanEnd(es);
    var k :| 0 <= k < |es| && LastClosing(es, k) && Scan(es).value.end == es[k].value.value.1;
    LastClosingLine(fields.size, lines, k, decode);
  }

  /** An sqlog in which no line closes the connection raises
      UnboundLocalError unless it is abandoned or fails first. */
  lemma SqlogWithoutClose(file: string, lines: seq<string>, decode: Decoder)
    requires ProcessFileName(file).Ok?
    requires var st := ScanLines(ProcessFileName(file).value.size, lines, decode); st.Ok? && st.value.Scanning?
    requires forall i | 0 <= i < |lines| :: !LineCloses(lines[i], decode)
    ensures SqlogRow(file, lines, decode) == Err(UnboundLocalError)
  {
    var fields := ProcessFileName(file).value;
    var es := Effects(fields.size, lines, decode);
    ScanContinues(es);
    ScanEnd(es);
    if Scan(es).value.end.Some? {
      var k :| 0 <= k < |es| && LastClosing(es, k) && Scan(es).value.end == es[k].value.value.1;
      LastClosingLine(fields.size, lines, k, decode);
      assert false;
    }
  }

  /** A decodable prefix followed by an undecodable line adds no row, whatever
      comes after. */
  lemma SqlogAbandoned(file: string, lines: seq<string>, i: nat, decode: Decoder)
    requires ProcessFileName(file).Ok?
    requires i < |lines|
    requires var st := ScanLines(ProcessFileName(file).value.size, lines[..i], decode); st.Ok? && st.value.Scanning?
    requires LineRecord(lines[i], decode) == Ok(None)
    ensures SqlogRow(file, lines, decode) == Ok(None)
  {
    var size := ProcessFileName(file).value.size;
    var es := Effects(size, lines, decode);
    EffectsPrefix(size, lines, i, decode);
    assert es[..i + 1][..i] == es[..i];
    assert Scan(es[..i + 1]) == Ok(Abandoned);
    ScanPrefixStops(es, i + 1);
  }

  // ---------------------------------------------------------------------
  // Extension dispatch over the command-line files

  predicate AllDots(s: string) { forall i | 0 <= i < |s| :: s[i] == '.' }

  /** `os.path.splitext(path)[1]`: from the last '.' of the base name, unless
      only dots precede it there. */
  function Extension(path: string): (e: string)
    ensures e == [] || (e[0] == '.' && EndsWith(Basename(path), e) && '.' !in e[1..])
  {
    var base := Basename(path);
    if '.' !in base then []
    else
      var i := LastIndexOf(base, '.');
      if AllDots(base[..i]) then [] else base[i..]
  }

  lemma ExtensionOfBase(path: string, stem: string, ext: string)
    requires Basename(path) == stem + ['.'] + ext
    requires '.' !in ext && !AllDots(stem)
    ensures Extension(path) == ['.'] + ext
  {
    var name := Basename(path);
    assert name[|stem|] == '.';
    assert name[|stem| + 1..] == ext;
    LastIndexOfUnique(name, '.', |stem|);
    assert name[..|stem|] == stem;
    assert name[|stem|..] == ['.'] + ext;
  }

  /** A name whose base name is `stem.<ext>` with a non-dot character in the
      stem has extension `.<ext>`. */
  lemma ExtensionOfName(dir: string, stem: string, ext: string)
    requires '/' !in stem && '/' !in ext && '.' !in ext
    requires !AllDots(stem)
    ensures Extension(dir + "/" + stem + "." + ext) == "." + ext
  {
    var name := stem + ['.'] + ext;
    assert dir + "/" + stem + "." + ext == dir + "/" + name;
    BasenameOfPath(dir, name);
    ExtensionOfBase(dir + "/" + name, stem, ext);
  }

  /** A file as the evaluator reads it: its path and its lines, each with its
      line terminator. */
  datatype InputFile = InputFile(path: string, lines: seq<string>)

  /** The whole text `json.load` reads. */
  function Text(lines: seq<string>): (t: string)
    ensures |lines| == 1 ==> t == lines[0]
  {
    if lines == [] then [] else Text(lines[..|lines| - 1]) + lines[|lines| - 1]
  }

  /** The row one command-line file contributes. */
  function FileRow(f: InputFile, decode: Decoder): (r: Result<Option<DurationRow>>)
    ensures r.Ok? && r.value.Some? ==> Extension(f.path) in {".qlog", ".sqlog"}
    ensures Extension(f.path) == ".qlog" ==> r == QlogRow(f.path, Text(f.lines), decode)
    ensures Extension(f.path) == ".sqlog" ==> r == SqlogRow(f.path, f.lines, decode)
    ensures Extension(f.path) !in {".qlog", ".sqlog"} ==> r == Ok(None)
  {
    var ext := Extension(f.path);
    if ext == ".qlog" then QlogRow(f.path, Text(f.lines), decode)
    else if ext == ".sqlog" then SqlogRow(f.path, f.lines, decode)
    else Ok(None)
  }

  /** The rows the files produce, in file order. */
  function Produced(results: seq<Result<Option<DurationRow>>>): (rows: seq<DurationRow>)
    ensures |rows| <= |results|
  {
    if results == [] then []
    else
      var last := results[|results| - 1];
      Produced(results[..|results| - 1]) + (if last.Ok? && last.value.Some? then [last.value.value] else [])
  }

  function Reversed<T>(s: seq<T>): (r: seq<T>)
    ensures |r| == |s|
    ensures forall i | 0 <= i < |s| :: r[i] == s[|s| - 1 - i]
  {
    if s == [] then [] else [s[|s| - 1]] + Reversed(s[..|s| - 1])
  }

  /** The global table built from per-file outcomes: each produced row is
      prepended, and the first error ends the script. */
  function Collect(results: seq<Result<Option<DurationRow>>>): (r: Result<seq<DurationRow>>)
  {
    if results == [] then Ok([])
    else
      var prev :- Collect(results[..|results| - 1]);
      var row :- results[|results| - 1];
      Ok(Prepend(row, prev))
  }

  /** The table is complete exactly when no file failed, and then holds the
      produced rows newest first. */
  lemma {:induction false} CollectSpec(results: seq<Result<Option<DurationRow>>>)
    ensures Collect(results).Ok? <==> forall i | 0 <= i < |results| :: results[i].Ok?
    ensures Collect(results).Ok? ==> Collect(results).value == Reversed(Produced(results))
  {
    if results != [] {
      var n := |results| - 1;
      var init := results[..n];
      CollectSpec(init);
      assert forall i | 0 <= i < n :: init[i] == results[i];
      if Collect(results).Ok? {
        var p := Produced(init);
        if results[n].value.Some? {
          var x := results[n].value.value;
          assert Produced(results) == p + [x];
          assert (p + [x])[..|p|] == p;
          assert Reversed(p + [x]) == [x] + Reversed(p);
        } else {
          assert Produced(results) == p + [];
          assert p + [] == p;
        }
      }
    }
  }

  /** One more file's result extends the collected table or stops it. */
  lemma CollectStep(results: seq<Result<Option<DurationRow>>>, i: nat)
    requires i < |results| && Collect(results[..i]).Ok?
    ensures results[i].Ok? ==> Collect(results[..i + 1]) == Ok(Prepend(results[i].value, Collect(results[..i]).value))
    ensures results[i].Err? ==> Collect(results[..i + 1]) == Err(results[i].error)
  {
    assert results[..i + 1][..i] == results[..i];
  }

  /** An error in one file is the script's error: later files are never read. */
  lemma {:induction false} CollectPrefixFails(results: seq<Result<Option<DurationRow>>>, i: nat)
    requires i <= |results| && Collect(results[..i]).Err?
    ensures Collect(results) == Collect(results[..i])
    decreases |results| - i
  {
    if i < |results| {
      var next := results[..i + 1];
      assert next[..i] == results[..i];
      CollectPrefixFails(results, i + 1);
    } else {
      assert results[..i] == results;
    }
  }

  function FileRows(files: seq<InputFile>, decode: Decoder): (rs: seq<Result<Option<DurationRow>>>)
    ensures |rs| == |files|
    ensures forall i | 0 <= i < |files| :: rs[i] == FileRow(files[i], decode)
  {
    seq(|files|, i requires 0 <= i < |files| => FileRow(files[i], decode))
  }

  /** The table after the command-line files, in order. */
  function Frame(files: seq<InputFile>, decode: Decoder): Result<seq<DurationRow>>
  {
    Collect(FileRows(files, decode))
  }

  /** The script ends with a table exactly when no file raised, and the table
      lists the rows of the `.qlog` and `.sqlog` files newest first, at most
      one per file. */
  lemma FrameSpec(files: seq<InputFile>, decode: Decoder)
    ensures Frame(files, decode).Ok? <==> forall i | 0 <= i < |files| :: FileRow(files[i], decode).Ok?
    ensures Frame(files, decode).Ok? ==> Frame(files, decode).value == Reversed(Produced(FileRows(files, decode)))
    ensures Frame(files, decode).Ok? ==> |Frame(files, decode).value| <= |files|
  {
    CollectSpec(FileRows(files, decode));
  }

  /** Every produced row is the row of one of the files. */
  lemma {:induction false} ProducedFrom(results: seq<Result<Option<DurationRow>>>)
    ensures forall k | 0 <= k < |Produced(results)| :: exists i | 0 <= i < |results| ::
      results[i] == Ok(Some(Produced(results)[k]))
  {
    if results != [] {
      var n := |results| - 1;
      var init := results[..n];
      ProducedFrom(init);
      var p := Produced(init);
      var last := results[n];
      var extra := if last.Ok? && last.value.Some? then [last.value.value] else [];
      assert Produced(results) == p + extra;
      forall k | 0 <= k < |Produced(results)|
        ensures exists i | 0 <= i < |results| :: results[i] == Ok(Some(Produced(results)[k]))
      {
        if k < |p| {
          var i :| 0 <= i < n && init[i] == Ok(Some(p[k]));
          assert results[i] == init[i];
          assert Produced(results)[k] == p[k];
        } else {
          assert Produced(results)[k] == extra[0];
          assert results[n] == Ok(Some(Produced(results)[k]));
        }
      }
      assert forall k | 0 <= k < |Produced(results)| :: exists i | 0 <= i < |results| :: results[i] == Ok(Some(Produced(results)[k]));
    } else {
      assert Produced(results) == [];
    }
  }

  /** `row` is the row of a `.qlog` or `.sqlog` file among `files`. */
  predicate RowOfDataFile(files: seq<InputFile>, row: DurationRow, decode: Decoder)
  {
    exists i | 0 <= i < |files| ::
      Extension(files[i].path) in {".qlog", ".sqlog"} && FileRow(files[i], decode) == Ok(Some(row))
  }

  /** Only `.qlog` and `.sqlog` files produce rows. */
  lemma ProducedFromDataFiles(files: seq<InputFile>, decode: Decoder)
    ensures forall row <- Produced(FileRows(files, decode)) :: RowOfDataFile(files, row, decode)
  {
    var rs := FileRows(files, decode);
    ProducedFrom(rs);
    forall row <- Produced(rs)
      ensures RowOfDataFile(files, row, decode)
    {
      var k :| 0 <= k < |Produced(rs)| && Produced(rs)[k] == row;
      var i :| 0 <= i < |rs| && rs[i] == Ok(Some(Produced(rs)[k]));
      assert FileRow(files[i], decode) == rs[i];
    }
  }

  /** A file with any other extension leaves the table as it was. */
  lemma OtherExtensionIgnored(files: seq<InputFile>, f: InputFile, decode: Decoder)
    requires Extension(f.path) !in {".qlog", ".sqlog"}
    ensures Frame(files + [f], decode) == Frame(files, decode)
  {
    var rs := FileRows(files + [f], decode);
    assert rs[..|files|] == FileRows(files, decode);
  }

  /** A file that produces a row puts it at the front of the table. */
  lemma RowPrepended(files: seq<InputFile>, f: InputFile, decode: Decoder)
    requires Frame(files, decode).Ok? && FileRow(f, decode).Ok? && FileRow(f, decode).value.Some?
    ensures Frame(files + [f], decode) == Ok([FileRow(f, decode).value.value] + Frame(files, decode).value)
  {
    var rs := FileRows(files + [f], decode);
    assert rs[..|files|] == FileRows(files, decode);
  }

  // ---------------------------------------------------------------------
  // The global table and the per-file procedures

  /** The script's global `df`. */
  class DurationTable {
    var rows: seq<DurationRow>

    constructor()
      ensures rows == []
    {
      rows := [];
    }

    /** `process_qlog`. */
    method ProcessQlog(file: string, text: string, decode: Decoder) returns (r: Result<()>)
      modifies this
      ensures QlogRow(file, text, decode).Ok? ==> r.Ok? && rows == Prepend(QlogRow(file, text, decode).value, old(rows))
      ensures QlogRow(file, text, decode).Err? ==> r == Err(QlogRow(file, text, decode).error) && rows == old(rows)
    {
      var fields :- ProcessFileName(file);
      var doc := decode(text);
      if doc.None? {
        return Ok(());
      }
      var bytes :- SizeToBytes(fields.size);
      var duration :- QlogDuration(doc.value);
      rows := [DurationRow(fields.provider, fields.algorithm, bytes, duration)] + rows;
      return Ok(());
    }

    /** `process_sqlog`. */
    method ProcessSqlog(file: string, lines: seq<string>, decode: Decoder) returns (r: Result<()>)
      modifies this
      ensures SqlogRow(file, lines, decode).Ok? ==> r.Ok? && rows == Prepend(SqlogRow(file, lines, decode).value, old(rows))
      ensures SqlogRow(file, lines, decode).Err? ==> r == Err(SqlogRow(file, lines, decode).error) && rows == old(rows)
    {
      var fields :- ProcessFileName(file);
      var scan := ReadLines(fields.size, lines, decode);
      if scan.Err? {
        return Err(scan.error);
      }
      var row :- RowOfScan(fields, scan.value);
      rows := Prepend(row, rows);
      return Ok(());
    }
  }

  /** The line loop of `process_sqlog`: it keeps `bytesize` and
      `connection_end` and returns early on the first undecodable line. */
  method ReadLines(size: string, lines: seq<string>, decode: Decoder) returns (r: Result<SqlogScan>)
    ensures r == ScanLines(size, lines, decode)
  {
    ghost var es := Effects(size, lines, decode);
    var bytes: Option<int> := None;
    var end: Option<Value> := None;
    var i := 0;
    while i < |lines|
      invariant 0 <= i <= |lines|
      invariant Scan(es[..i]) == Ok(Scanning(bytes, end))
    {
      assert es[..i + 1][..i] == es[..i];
      assert es[i] == LineEffectOf(size, lines[i], decode);
      var step := ReadLine(bytes, end, size, lines[i], decode);
      assert Scan(es[..i + 1]) == step;
      if step.Err? || step.value.Abandoned? {
        ScanPrefixStops(es, i + 1);
        return step;
      }
      bytes, end := step.value.bytes, step.value.end;
      i := i + 1;
    }
    assert es[..i] == es;
    return Ok(Scanning(bytes, end));
  }

  /** One pass of the line loop of `process_sqlog`: strip one separator,
      decode, bind `bytesize`, and look for a connection_close frame. */
  method ReadLine(bytes: Option<int>, end: Option<Value>, size: string, line: string, decode: Decoder)
    returns (r: Result<SqlogScan>)
    ensures r == Step(Scanning(bytes, end), LineEffectOf(size, line, decode))
  {
    if line == [] {
      return Err(IndexError);
    }
    var text := line;
    if text[0] == RecordSeparator {
      text := text[1..];
    }
    var record := decode(text);
    if record.None? {
      return Ok(Abandoned);
    }
    var b :- SizeToBytes(size);
    var close :- RecordEnd(record.value);
    var newEnd := end;
    if close.Some? {
      newEnd := close;
    }
    return Ok(Scanning(Some(b), newEnd));
  }

  /** The body of `if "name" in qlog_loaded: ...`, with its loop over frames. */
  method RecordEnd(record: Value) returns (r: Result<Option<Value>>)
    ensures r == RecordCloseTime(record)
  {
    var hasName :- HasKey(record, "name");
    if !hasName {
      return Ok(None);
    }
    var name :- Get(record, "name");
    if name != Str(PacketReceived) {
      return Ok(None);
    }
    var frames :- FramesOf(record);
    r := CloseTimeLoop(record, frames);
  }

  /** The loop over `frames`: the last close frame's record `time`, or the
      first error met. */
  method CloseTimeLoop(record: Value, frames: seq<Value>) returns (r: Result<Option<Value>>)
    ensures r == CloseTimeOfFrames(record, frames)
  {
    var end: Option<Value> := None;
    var j := 0;
    while j < |frames|
      invariant 0 <= j <= |frames|
      invariant CloseTimeOfFrames(record, frames[..j]) == Ok(end)
    {
      CloseTimeStep(record, frames, j);
      var kind := Get(frames[j], "frame_type");
      if kind.Err? {
        FramesPrefixFails(record, frames, j + 1);
        return Err(kind.error);
      }
      if kind.value == Str(ConnectionClose) {
        var time := Get(record, "time");
        if time.Err? {
          FramesPrefixFails(record, frames, j + 1);
          return Err(time.error);
        }
        end := Some(time.value);
      }
      j := j + 1;
    }
    assert frames[..j] == frames;
    return Ok(end);
  }

  /** One more frame: an unreadable `frame_type` or, on a close frame, an
      unreadable `time` fails; a close frame sets the time; any other frame
      keeps what the frames before it gave. */
  lemma CloseTimeStep(record: Value, frames: seq<Value>, j: nat)
    requires j < |frames| && CloseTimeOfFrames(record, frames[..j]).Ok?
    ensures var kind := Get(frames[j], "frame_type");
      CloseTimeOfFrames(record, frames[..j + 1])
        == if kind.Err? then Err(kind.error)
           else if kind.value != Str(ConnectionClose) then CloseTimeOfFrames(record, frames[..j])
           else if Get(record, "time").Err? then Err(Get(record, "time").error)
           else Ok(Some(Get(record, "time").value))
  {
    assert frames[..j + 1][..j] == frames[..j];
  }

  lemma {:induction false} FramesPrefixFails(record: Value, frames: seq<Value>, i: nat)
    requires i <= |frames| && CloseTimeOfFrames(record, frames[..i]).Err?
    ensures CloseTimeOfFrames(record, frames) == CloseTimeOfFrames(record, frames[..i])
    decreases |frames| - i
  {
    if i < |frames| {
      var next := frames[..i + 1];
      assert next[..i] == frames[..i];
      FramesPrefixFails(record, frames, i + 1);
    } else {
      assert frames[..i] == frames;
    }
  }

  /** One pass of the script's file loop: dispatch on the extension. */
  method ProcessFile(df: DurationTable, f: InputFile, decode: Decoder) returns (r: Result<()>)
    modifies df
    ensures FileRow(f, decode).Ok? ==> r.Ok? && df.rows == Prepend(FileRow(f, decode).value, old(df.rows))
    ensures FileRow(f, decode).Err? ==> r == Err(FileRow(f, decode).error) && df.rows == old(df.rows)
  {
    var ext := Extension(f.path);
    r := Ok(());
    if ext == ".qlog" {
      r := df.ProcessQlog(f.path, Text(f.lines), decode);
    } else if ext == ".sqlog" {
      r := df.ProcessSqlog(f.path, f.lines, decode);
    }
  }

  /** The table after one more file, from the table before it. */
  lemma FrameStep(files: seq<InputFile>, i: nat, decode: Decoder)
    requires i < |files| && Frame(files[..i], decode).Ok?
    ensures FileRow(files[i], decode).Ok? ==>
      Frame(files[..i + 1], decode) == Ok(Prepend(FileRow(files[i], decode).value, Frame(files[..i], decode).value))
    ensures FileRow(files[i], decode).Err? ==> Frame(files[..i + 1], decode) == Err(FileRow(files[i], decode).error)
  {
    var rs := FileRows(files, decode);
    assert rs[..i] == FileRows(files[..i], decode);
    assert rs[..i + 1] == FileRows(files[..i + 1], decode);
    CollectStep(rs, i);
  }

  /** Once a prefix of the files fails, so do all of them. */
  lemma FramePrefixFails(files: seq<InputFile>, i: nat, decode: Decoder)
    requires i <= |files| && Frame(files[..i], decode).Err?
    ensures Frame(files, decode) == Frame(files[..i], decode)
  {
    var rs := FileRows(files, decode);
    assert rs[..i] == FileRows(files[..i], decode);
    CollectPrefixFails(rs, i);
  }

  /** The script's file loop over an initially empty table. */
  method ProcessFiles(files: seq<InputFile>, decode: Decoder) returns (r: Result<seq<DurationRow>>)
    ensures r == Frame(files, decode)
  {
    var df := new DurationTable();
    var i := 0;
    while i < |files|
      invariant 0 <= i <= |files|
      invariant Frame(files[..i], decode) == Ok(df.rows)
    {
      FrameStep(files, i, decode);
      var step := ProcessFile(df, files[i], decode);
      if step.Err? {
        FramePrefixFails(files, i + 1, decode);
        return Err(step.error);
      }
      i := i + 1;
    }
    assert files[..i] == files;
    return Ok(df.rows);
  }
}
