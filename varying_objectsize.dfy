/** Object-size experiment of varyingObjectsize_RTT_cwnd/varyingObjectsize.py:
    which (size, iteration) setups are run and how their result files are
    named, how a file name is parsed back into its setup, and how metric
    records are extracted from an array-form picoquic qlog and from a
    stream-form quiche sqlog (JSON texts separated by U+001E, as in section 2
    of RFC 7464). */
module VaryingObjectsize {
  import opened Outcomes
  import opened Strings
  import opened Json

  // =====================================================================
  // The measurement plan (runImplementation)

  const ObjsizeList: seq<nat> := [10000, 30000, 100000, 300000, 1000000, 3000000,
                                  10000000, 30000000, 100000000, 300000000]
  const Operators: seq<string> := ["NetEm"]
  const CcAlgorithms: seq<string> := ["cubic", "bbr"]

  datatype Implementation = Picoquic | Quiche

  /** The very large objects are only fetched in the first iterations. */
  predicate SkipObject(objsize: int, iteration: int)
  {
    (objsize == 100000000 && iteration > 5) || (objsize == 300000000 && iteration > 2)
  }

  /** What one result file was measured under. */
  datatype Setup = Setup(operator: string, cc: string, objsize: int, iteration: int)

  /** One setup per operator, in the order of the operator list. */
  function PlanOperators(ops: seq<string>, cc: string, objsize: nat, iteration: nat): (r: seq<Setup>)
    ensures |r| == |ops| && forall i | 0 <= i < |ops| :: r[i] == Setup(ops[i], cc, objsize, iteration)
    ensures forall st :: st in r <==> st.operator in ops && st == Setup(st.operator, cc, objsize, iteration)
  {
    if ops == [] then []
    else PlanOperators(ops[..|ops| - 1], cc, objsize, iteration) + [Setup(ops[|ops| - 1], cc, objsize, iteration)]
  }

  function PlanSizes(sizes: seq<nat>, cc: string, iteration: nat): seq<Setup>
  {
    if sizes == [] then []
    else
      var objsize := sizes[|sizes| - 1];
      PlanSizes(sizes[..|sizes| - 1], cc, iteration)
        + (if SkipObject(objsize, iteration) then [] else PlanOperators(Operators, cc, objsize, iteration))
  }

  function PlanCcs(ccs: seq<string>, iteration: nat): seq<Setup>
  {
    if ccs == [] then [] else PlanCcs(ccs[..|ccs| - 1], iteration) + PlanSizes(ObjsizeList, ccs[|ccs| - 1], iteration)
  }

  /** The setups of `iterations` rounds, in the order they are run. */
  function Plan(iterations: nat): seq<Setup>
  {
    if iterations == 0 then [] else Plan(iterations - 1) + PlanCcs(CcAlgorithms, iterations - 1)
  }

  lemma {:induction false} PlanSizesMembers(sizes: seq<nat>, cc: string, iteration: nat)
    ensures forall st :: st in PlanSizes(sizes, cc, iteration) <==>
      && st.operator in Operators && st.cc == cc && st.iteration == iteration
      && st.objsize in sizes && !SkipObject(st.objsize, iteration)
  {
    if sizes != [] {
      PlanSizesMembers(sizes[..|sizes| - 1], cc, iteration);
      assert sizes == sizes[..|sizes| - 1] + [sizes[|sizes| - 1]];
    }
  }

  lemma {:induction false} PlanCcsMembers(ccs: seq<string>, iteration: nat)
    ensures forall st :: st in PlanCcs(ccs, iteration) <==>
      && st.operator in Operators && st.cc in ccs && st.iteration == iteration
      && st.objsize in ObjsizeList && !SkipObject(st.objsize, iteration)
  {
    if ccs != [] {
      PlanCcsMembers(ccs[..|ccs| - 1], iteration);
      PlanSizesMembers(ObjsizeList, ccs[|ccs| - 1], iteration);
      assert ccs == ccs[..|ccs| - 1] + [ccs[|ccs| - 1]];
    }
  }

  /** A setup is run exactly when its operator, algorithm, size and iteration
      are in range and the size is not skipped in that iteration. */
  lemma {:induction false} PlanMembers(iterations: nat, st: Setup)
    ensures st in Plan(iterations) <==> Planned(st) && 0 <= st.iteration < iterations
  {
    if iterations > 0 {
      var n := iterations - 1;
      PlanMembers(n, st);
      PlanRound(n, st);
      PlanUnfold(n);
    }
  }

  lemma PlanUnfold(n: nat)
    ensures Plan(n + 1) == Plan(n) + PlanCcs(CcAlgorithms, n)
  {
  }

  /** Round `n` runs exactly the planned setups of iteration `n`. */
  lemma PlanRound(n: nat, st: Setup)
    ensures st in PlanCcs(CcAlgorithms, n) <==> Planned(st) && st.iteration == n
  {
    PlanCcsMembers(CcAlgorithms, n);
  }

  /** Operator, algorithm and size are listed, and the size is not skipped
      in the setup's iteration. */
  predicate Planned(st: Setup)
  {
    && st.operator in Operators && st.cc in CcAlgorithms
    && st.objsize in ObjsizeList && !SkipObject(st.objsize, st.iteration)
  }

  method RunOperators(cc: string, objsize: nat, iteration: nat) returns (setups: seq<Setup>)
    ensures setups == PlanOperators(Operators, cc, objsize, iteration)
  {
    setups := [];
    var k := 0;
    while k < |Operators|
      invariant 0 <= k <= |Operators|
      invariant setups == PlanOperators(Operators[..k], cc, objsize, iteration)
    {
      assert Operators[..k + 1][..k] == Operators[..k];
      setups := setups + [Setup(Operators[k], cc, objsize, iteration)];
      k := k + 1;
    }
    assert Operators[..k] == Operators;
  }

  method RunSizes(cc: string, iteration: nat) returns (setups: seq<Setup>)
    ensures setups == PlanSizes(ObjsizeList, cc, iteration)
  {
    var sizes := ObjsizeList;
    setups := [];
    var k := 0;
    while k < |sizes|
      invariant 0 <= k <= |sizes|
      invariant setups == PlanSizes(sizes[..k], cc, iteration)
    {
      assert sizes[..k + 1][..k] == sizes[..k];
      var objsize := sizes[k];
      if !SkipObject(objsize, iteration) {
        var more := RunOperators(cc, objsize, iteration);
        setups := setups + more;
      }
      k := k + 1;
    }
    assert sizes[..k] == sizes;
  }

  method RunCcs(iteration: nat) returns (setups: seq<Setup>)
    ensures setups == PlanCcs(CcAlgorithms, iteration)
  {
    var ccs := CcAlgorithms;
    setups := [];
    var k := 0;
    while k < |ccs|
      invariant 0 <= k <= |ccs|
      invariant setups == PlanCcs(ccs[..k], iteration)
    {
      assert ccs[..k + 1][..k] == ccs[..k];
      var more := RunSizes(ccs[k], iteration);
      setups := setups + more;
      k := k + 1;
    }
    assert ccs[..k] == ccs;
  }

  /** runImplementation without its processes: the setups in the order they
      are measured.  A setup's result file is `ResultFileName(impl, setup)`. */
  method RunImplementation(iterations: nat) returns (setups: seq<Setup>)
    ensures setups == Plan(iterations)
  {
    setups := [];
    var iteration := 0;
    while iteration < iterations
      invariant 0 <= iteration <= iterations
      invariant setups == Plan(iteration)
    {
      var more := RunCcs(iteration);
      setups := setups + more;
      iteration := iteration + 1;
    }
  }

  // =====================================================================
  // Result file names

  function ImplName(impl: Implementation): string
  {
    match impl
    case Picoquic => "picoquic"
    case Quiche => "quiche"
  }

  function Extension(impl: Implementation): string
  {
    match impl
    case Picoquic => ".qlog"
    case Quiche => ".sqlog"
  }

  function SetupFields(impl: Implementation, operator: string, cc: string, objsize: nat, iteration: nat): seq<string>
  {
    [ImplName(impl), operator, cc, "objsize" + NatToString(objsize), "iter" + NatToString(iteration)]
  }

  /** `currentSetup`: `{impl}_{operator}_{cc}_objsize{n}_iter{i}`. */
  function SetupName(impl: Implementation, operator: string, cc: string, objsize: nat, iteration: nat): string
  {
    Join(SetupFields(impl, operator, cc, objsize, iteration), '_')
  }

  function ResultFileName(impl: Implementation, operator: string, cc: string, objsize: nat, iteration: nat): string
  {
    SetupName(impl, operator, cc, objsize, iteration) + Extension(impl)
  }

  /** The file-name parse shared by both evaluators: base name, extension
      removed everywhere, fields split at '_'. */
  function ParseSetup(filename: string, ext: string): (r: Result<Setup>)
    requires |ext| > 0
    ensures r.Ok? ==> |Split(Remove(Basename(filename), ext), '_')| >= 5
    ensures |Split(Remove(Basename(filename), ext), '_')| < 4 ==> r == Err(IndexError)
  {
    var parameters := Split(Remove(Basename(filename), ext), '_');
    var operator :- At(parameters, 1);
    var cc :- At(parameters, 2);
    var objsizeField :- At(parameters, 3);
    var objsize :- PyInt(Remove(objsizeField, "objsize"));
    var iterField :- At(parameters, 4);
    var iteration :- PyInt(Remove(iterField, "iter"));
    Ok(Setup(operator, cc, objsize, iteration))
  }

  /** A name component the parse can carry: no field separator, no dot and no
      directory separator. */
  predicate PlainComponent(s: string) { '_' !in s && '.' !in s && '/' !in s }

  lemma TaggedNumberField(tag: string, n: nat)
    requires |tag| > 0 && !IsDigit(tag[0])
    ensures PyInt(Remove(tag + NatToString(n), tag)) == Ok(n)
  {
    var digits := NatToString(n);
    RemoveLeading(digits, tag);
    ParseIntOfNatToString(n);
  }

  lemma SetupFieldsExclude(impl: Implementation, operator: string, cc: string, objsize: nat, iteration: nat, c: char)
    requires c in {'_', '.', '/'} && PlainComponent(operator) && PlainComponent(cc)
    ensures forall k | 0 <= k < 5 :: c !in SetupFields(impl, operator, cc, objsize, iteration)[k]
  {
    var a, b := NatToString(objsize), NatToString(iteration);
    DigitsExclude(a, c);
    DigitsExclude(b, c);
  }

  lemma SetupNameFields(impl: Implementation, operator: string, cc: string, objsize: nat, iteration: nat)
    requires PlainComponent(operator) && PlainComponent(cc)
    ensures Split(SetupName(impl, operator, cc, objsize, iteration), '_') == SetupFields(impl, operator, cc, objsize, iteration)
    ensures '.' !in SetupName(impl, operator, cc, objsize, iteration)
    ensures '/' !in SetupName(impl, operator, cc, objsize, iteration)
  {
    var parts := SetupFields(impl, operator, cc, objsize, iteration);
    SetupFieldsExclude(impl, operator, cc, objsize, iteration, '_');
    SetupFieldsExclude(impl, operator, cc, objsize, iteration, '.');
    SetupFieldsExclude(impl, operator, cc, objsize, iteration, '/');
    SplitJoin(parts, '_');
    JoinExcludes(parts, '_', '.');
    JoinExcludes(parts, '_', '/');
  }

  lemma ParseSetupOfFields(filename: string, ext: string, impl: Implementation, operator: string, cc: string,
                           objsize: nat, iteration: nat)
    requires |ext| > 0
    requires Split(Remove(Basename(filename), ext), '_') == SetupFields(impl, operator, cc, objsize, iteration)
    ensures ParseSetup(filename, ext) == Ok(Setup(operator, cc, objsize, iteration))
  {
    TaggedNumberField("objsize", objsize);
    TaggedNumberField("iter", iteration);
  }

  /** A result file, wherever it is stored, parses back to the setup it was
      named after. */
  lemma ResultFileNameRoundTrip(dir: string, impl: Implementation, operator: string, cc: string,
                                objsize: nat, iteration: nat)
    requires PlainComponent(operator) && PlainComponent(cc)
    ensures ParseSetup(dir + "/" + ResultFileName(impl, operator, cc, objsize, iteration), Extension(impl))
            == Ok(Setup(operator, cc, objsize, iteration))
  {
    var name := SetupName(impl, operator, cc, objsize, iteration);
    var ext := Extension(impl);
    var filename := dir + "/" + ResultFileName(impl, operator, cc, objsize, iteration);
    SetupNameFields(impl, operator, cc, objsize, iteration);
    assert '/' !in ext;
    BasenameOfPath(dir, name + ext);
    RemoveTrailing(name, ext);
    assert Remove(Basename(filename), ext) == name;
    ParseSetupOfFields(filename, ext, impl, operator, cc, objsize, iteration);
  }

  // =====================================================================
  // Metric records

  /** One row of data_picoquic.csv / data_quiche.csv. */
  datatype Metric = Metric(operator: string, cc: string, objsize: int, iteration: int,
                           time: Value, key: string, value: Value)

  predicate Carries(m: Metric, st: Setup)
  {
    m.operator == st.operator && m.cc == st.cc && m.objsize == st.objsize && m.iteration == st.iteration
  }

  /** The outcome of two consecutive stretches of work appending to one list:
      the first failure wins, otherwise the records are concatenated. */
  function Then(a: Result<seq<Metric>>, b: Result<seq<Metric>>): (r: Result<seq<Metric>>)
    ensures r.Ok? <==> a.Ok? && b.Ok?
    ensures r.Ok? ==> r.value == a.value + b.value
    ensures a.Err? ==> r == a
    ensures a.Ok? && b.Err? ==> r == b
  {
    match a
    case Err(e) => Err(e)
    case Ok(xs) => (match b case Err(e) => Err(e) case Ok(ys) => Ok(xs + ys))
  }

  lemma ThenAssociative(a: Result<seq<Metric>>, b: Result<seq<Metric>>, c: Result<seq<Metric>>)
    ensures Then(Then(a, b), c) == Then(a, Then(b, c))
  {
    if a.Ok? && b.Ok? && c.Ok? {
      assert (a.value + b.value) + c.value == a.value + (b.value + c.value);
    }
  }

  // ---------------------------------------------------------------------
  // Array form (evalPicoquicSingleFile)

  /** An event `[time, "recovery", "metrics_updated", data, ...]`. */
  predicate IsMetricsEvent(event: Value)
  {
    event.Arr? && |event.items| >= 3
    && event.items[1] == Str("recovery") && event.items[2] == Str("metrics_updated")
  }

  /** One record per member of `data`, each value truncated by `int()`. */
  function PicoquicFieldRecords(st: Setup, time: Value, data: seq<(string, Value)>): (r: Result<seq<Metric>>)
    ensures r.Ok? ==> |r.value| == |data|
  {
    if data == [] then Ok([])
    else
      Then(PicoquicFieldRecords(st, time, data[..|data| - 1]), FieldRecord(st, time, data[|data| - 1]))
  }

  /** The record of one `data` member. */
  function FieldRecord(st: Setup, time: Value, field: (string, Value)): (r: Result<seq<Metric>>)
    ensures r.Ok? <==> IntOf(field.1).Ok?
    ensures r.Ok? ==> |r.value| == 1 && RecordOfField(r.value[0], st, time, field)
  {
    match IntOf(field.1)
    case Err(e) => Err(e)
    case Ok(n) => Ok([Metric(st.operator, st.cc, st.objsize, st.iteration, time, field.0, Num(n as real))])
  }

  /** Exactly one record per field, in field order, carrying the setup, the
      unscaled event time, the field's key and its value truncated to an
      integer; the records exist exactly when every value converts. */
  lemma PicoquicFieldRecordsSpec(st: Setup, time: Value, data: seq<(string, Value)>)
    ensures PicoquicFieldRecords(st, time, data).Ok? <==> forall k | 0 <= k < |data| :: IntOf(data[k].1).Ok?
    ensures var r := PicoquicFieldRecords(st, time, data);
      r.Ok? ==> forall k | 0 <= k < |data| ::
        && Carries(r.value[k], st) && r.value[k].time == time && r.value[k].key == data[k].0
        && r.value[k].value == Num(IntOf(data[k].1).value as real)
  {
    PicoquicFieldRecordsOk(st, time, data);
    PicoquicFieldRecordsValues(st, time, data);
  }

  lemma {:induction false} PicoquicFieldRecordsOk(st: Setup, time: Value, data: seq<(string, Value)>)
    ensures PicoquicFieldRecords(st, time, data).Ok? <==> forall k | 0 <= k < |data| :: IntOf(data[k].1).Ok?
  {
    if data != [] {
      var n := |data| - 1;
      var init := data[..n];
      PicoquicFieldRecordsOk(st, time, init);
      var a := PicoquicFieldRecords(st, time, init);
      var b := FieldRecord(st, time, data[n]);
      assert PicoquicFieldRecords(st, time, data) == Then(a, b);
      if forall k | 0 <= k < |data| :: IntOf(data[k].1).Ok? {
        forall k | 0 <= k < n ensures IntOf(init[k].1).Ok? {
          assert init[k] == data[k];
        }
      }
      if a.Ok? && b.Ok? {
        forall k | 0 <= k < |data| ensures IntOf(data[k].1).Ok? {
          if k < n {
            assert init[k] == data[k];
          }
        }
      }
    }
  }

  /** `m` is the record of member `field` of an event at `time`. */
  predicate RecordOfField(m: Metric, st: Setup, time: Value, field: (string, Value))
  {
    && Carries(m, st) && m.time == time && m.key == field.0
    && IntOf(field.1).Ok? && m.value == Num(IntOf(field.1).value as real)
  }

  lemma {:induction false} PicoquicFieldRecordsValues(st: Setup, time: Value, data: seq<(string, Value)>)
    ensures var r := PicoquicFieldRecords(st, time, data);
      r.Ok? ==> forall k | 0 <= k < |data| :: RecordOfField(r.value[k], st, time, data[k])
  {
    if data != [] {
      var n := |data| - 1;
      var init := data[..n];
      PicoquicFieldRecordsValues(st, time, init);
      var a := PicoquicFieldRecords(st, time, init);
      var b := FieldRecord(st, time, data[n]);
      assert PicoquicFieldRecords(st, time, data) == Then(a, b);
      if a.Ok? && b.Ok? {
        var r := a.value + b.value;
        forall k | 0 <= k < |data|
          ensures RecordOfField(r[k], st, time, data[k])
        {
          if k < n {
            assert r[k] == a.value[k] && init[k] == data[k];
          } else {
            assert r[k] == b.value[0];
          }
        }
      }
    }
  }

  /** The records of one event: only recovery/metrics_updated events yield
      any.  An event `event[1]` or `event[2]` cannot be taken of fails as
      Python fails on it.  `for key in event[3]` visits nothing in an empty
      dict, list or string and fails on a value that is not iterable; a
      non-empty list or string is indexed by its own elements, which fails
      once `event[0]` has been read. */
  function PicoquicEventRecords(st: Setup, event: Value): (r: Result<seq<Metric>>)
    ensures r.Ok? && !IsMetricsEvent(event) ==> r.value == []
    ensures r.Ok? && IsMetricsEvent(event) ==>
      && |event.items| >= 4
      && ((event.items[3].Obj? && r == PicoquicFieldRecords(st, event.items[0], event.items[3].members))
          || (Elements(event.items[3]) == Ok([]) && r.value == []))
    ensures event.Arr? && |event.items| >= 3 && !IsMetricsEvent(event) ==> r == Ok([])
    ensures IsMetricsEvent(event) && |event.items| >= 4 && Elements(event.items[3]).Err? ==> r == Err(TypeError)
  {
    var category :- Item(event, 1);
    if category != Str("recovery") then Ok([])
    else
      var name :- Item(event, 2);
      if name != Str("metrics_updated") then Ok([])
      else
        var data :- Item(event, 3);
        var keys :- Elements(data);
        if keys == [] then Ok([])
        else
          var time :- Item(event, 0);
          if data.Obj? then PicoquicFieldRecords(st, time, data.members)
          else Err(TypeError)
  }

  /** The records of an event list, in event order and then field order. */
  function PicoquicRecords(st: Setup, events: seq<Value>): (r: Result<seq<Metric>>)
    ensures events == [] ==> r == Ok([])
  {
    if events == [] then Ok([])
    else Then(PicoquicRecords(st, events[..|events| - 1]), PicoquicEventRecords(st, events[|events| - 1]))
  }

  /** Every record of an event list carries the setup it was given. */
  lemma {:induction false} PicoquicRecordsCarry(st: Setup, events: seq<Value>)
    ensures PicoquicRecords(st, events).Ok? ==> forall m | m in PicoquicRecords(st, events).value :: Carries(m, st)
  {
    if events != [] {
      PicoquicRecordsCarry(st, events[..|events| - 1]);
      var e := events[|events| - 1];
      if IsMetricsEvent(e) && |e.items| >= 4 && e.items[3].Obj? {
        PicoquicFieldRecordsSpec(st, e.items[0], e.items[3].members);
      }
    }
  }

  /** evalPicoquicSingleFile: name parse, `json.load` (an undecodable file
      fails), then the events of the first trace. */
  function PicoquicFile(filename: string, text: string, decode: Decoder): Result<seq<Metric>>
  {
    var st :- ParseSetup(filename, ".qlog");
    match decode(text)
    case None => Err(ValueError)
    case Some(doc) =>
      var events :- TraceEvents(doc);
      PicoquicRecords(st, events)
  }

  lemma PicoquicRecordsSnoc(st: Setup, events: seq<Value>, event: Value)
    ensures PicoquicRecords(st, events + [event]) == Then(PicoquicRecords(st, events), PicoquicEventRecords(st, event))
  {
    assert (events + [event])[..|events|] == events;
  }

  lemma PicoquicRecordsStep(st: Setup, events: seq<Value>, i: nat)
    requires i < |events|
    ensures PicoquicRecords(st, events[..i + 1]) == Then(PicoquicRecords(st, events[..i]), PicoquicEventRecords(st, events[i]))
  {
    assert events[..i + 1] == events[..i] + [events[i]];
    PicoquicRecordsSnoc(st, events[..i], events[i]);
  }

  /** An event that is not a recovery/metrics_updated event adds nothing. */
  lemma OtherEventsIgnored(st: Setup, events: seq<Value>, event: Value)
    requires event.Arr? && |event.items| >= 3 && !IsMetricsEvent(event)
    ensures PicoquicRecords(st, events + [event]) == PicoquicRecords(st, events)
  {
    PicoquicRecordsSnoc(st, events, event);
    var prev := PicoquicRecords(st, events);
    if prev.Ok? {
      assert prev.value + [] == prev.value;
    }
  }

  /** A metrics event adds exactly one record per key its `data` visits,
      after the earlier ones. */
  lemma MetricsEventAppends(st: Setup, events: seq<Value>, event: Value)
    requires IsMetricsEvent(event) && PicoquicRecords(st, events + [event]).Ok?
    ensures PicoquicRecords(st, events).Ok?
    ensures var all := PicoquicRecords(st, events + [event]).value;
      var before := PicoquicRecords(st, events).value;
      && |event.items| >= 4 && Elements(event.items[3]).Ok?
      && |all| == |before| + |Elements(event.items[3]).value|
      && all[..|before|] == before
  {
    PicoquicRecordsSnoc(st, events, event);
  }

  lemma {:induction false} PicoquicFieldPrefixFails(st: Setup, time: Value, data: seq<(string, Value)>, i: nat)
    requires i <= |data| && PicoquicFieldRecords(st, time, data[..i]).Err?
    ensures PicoquicFieldRecords(st, time, data) == PicoquicFieldRecords(st, time, data[..i])
    decreases |data| - i
  {
    if i < |data| {
      assert data[..i + 1][..i] == data[..i];
      PicoquicFieldPrefixFails(st, time, data, i + 1);
    } else {
      assert data[..i] == data;
    }
  }

  lemma {:induction false} PicoquicPrefixFails(st: Setup, events: seq<Value>, i: nat)
    requires i <= |events| && PicoquicRecords(st, events[..i]).Err?
    ensures PicoquicRecords(st, events) == PicoquicRecords(st, events[..i])
    decreases |events| - i
  {
    if i < |events| {
      assert events[..i + 1][..i] == events[..i];
      PicoquicPrefixFails(st, events, i + 1);
    } else {
      assert events[..i] == events;
    }
  }

  /** The inner loop of evalPicoquicSingleFile over the members of one event. */
  method AppendPicoquicFields(st: Setup, time: Value, data: seq<(string, Value)>, acc: seq<Metric>)
    returns (r: Result<seq<Metric>>)
    ensures r == Then(Ok(acc), PicoquicFieldRecords(st, time, data))
  {
    var metrics := acc;
    var k := 0;
    while k < |data|
      invariant 0 <= k <= |data|
      invariant PicoquicFieldRecords(st, time, data[..k]).Ok?
      invariant metrics == acc + PicoquicFieldRecords(st, time, data[..k]).value
    {
      assert data[..k + 1][..k] == data[..k];
      var (key, v) := data[k];
      var n := IntOf(v);
      if n.Err? {
        PicoquicFieldPrefixFails(st, time, data, k + 1);
        return Err(n.error);
      }
      metrics := metrics + [Metric(st.operator, st.cc, st.objsize, st.iteration, time, key, Num(n.value as real))];
      k := k + 1;
    }
    assert data[..k] == data;
    r := Ok(metrics);
  }

  /** The body of the event loop: the filter, then the member loop. */
  method AppendEventRecords(st: Setup, event: Value, acc: seq<Metric>) returns (r: Result<seq<Metric>>)
    ensures r == Then(Ok(acc), PicoquicEventRecords(st, event))
  {
    assert acc + [] == acc;
    var category := Item(event, 1);
    if category.Err? { return Err(category.error); }
    if category.value != Str("recovery") { return Ok(acc); }
    var name := Item(event, 2);
    if name.Err? { return Err(name.error); }
    if name.value != Str("metrics_updated") { return Ok(acc); }
    var data := Item(event, 3);
    if data.Err? { return Err(data.error); }
    var keys := Elements(data.value);
    if keys.Err? { return Err(keys.error); }
    if keys.value == [] { return Ok(acc); }
    var time := Item(event, 0);
    if time.Err? { return Err(time.error); }
    if !data.value.Obj? { return Err(TypeError); }
    r := AppendPicoquicFields(st, time.value, data.value.members, acc);
  }

  /** evalPicoquicSingleFile: the event loop appending to `metrics_list`. */
  method EvalPicoquicSingleFile(filename: string, text: string, decode: Decoder) returns (r: Result<seq<Metric>>)
    ensures r == PicoquicFile(filename, text, decode)
  {
    var parsed := ParseSetup(filename, ".qlog");
    if parsed.Err? { return Err(parsed.error); }
    var st := parsed.value;
    var doc := decode(text);
    if doc.None? { return Err(ValueError); }
    var ev := TraceEvents(doc.value);
    if ev.Err? { return Err(ev.error); }
    var events := ev.value;
    var metrics: seq<Metric> := [];
    var i := 0;
    while i < |events|
      invariant 0 <= i <= |events|
      invariant PicoquicRecords(st, events[..i]) == Ok(metrics)
    {
      PicoquicRecordsStep(st, events, i);
      var step := AppendEventRecords(st, events[i], metrics);
      if step.Err? {
        PicoquicPrefixFails(st, events, i + 1);
        return step;
      }
      metrics := step.value;
      i := i + 1;
    }
    assert events[..i] == events;
    r := Ok(metrics);
  }

  // ---------------------------------------------------------------------
  // Stream form (evalQuicheSingleFile)

  const RecordSeparator: char := '\U{1E}'
  const RttKeys: seq<string> := ["min_rtt", "smoothed_rtt", "latest_rtt", "rtt_variance"]

  /** The record of one member of `data`: time ×1000, an RTT value ×1000,
      any other value as it is. */
  function QuicheFieldRecord(st: Setup, record: Value, key: string, v: Value): Result<seq<Metric>>
  {
    var t :- Get(record, "time");
    var time :- Times1000(t);
    var value :- if key in RttKeys then Times1000(v) else Ok(v);
    Ok([Metric(st.operator, st.cc, st.objsize, st.iteration, time, key, value)])
  }

  /** One record per member of `data`, in member order. */
  function QuicheFieldRecords(st: Setup, record: Value, data: seq<(string, Value)>): (r: Result<seq<Metric>>)
    ensures r.Ok? ==> |r.value| == |data|
  {
    if data == [] then Ok([])
    else
      Then(QuicheFieldRecords(st, record, data[..|data| - 1]),
           QuicheFieldRecord(st, record, data[|data| - 1].0, data[|data| - 1].1))
  }

  /** Exactly one record per field, in field order, carrying the setup, the
      record's time ×1000 and the field's key; RTT values are ×1000 and every
      other value is copied. */
  lemma {:induction false} QuicheFieldRecordsSpec(st: Setup, record: Value, data: seq<(string, Value)>)
    ensures var r := QuicheFieldRecords(st, record, data);
      r.Ok? && data != [] ==> Get(record, "time").Ok? && Times1000(Get(record, "time").value).Ok?
    ensures var r := QuicheFieldRecords(st, record, data);
      r.Ok? ==> forall k | 0 <= k < |data| ::
        && Carries(r.value[k], st) && r.value[k].key == data[k].0
        && r.value[k].time == Times1000(Get(record, "time").value).value
        && (data[k].0 in RttKeys ==> Times1000(data[k].1) == Ok(r.value[k].value))
        && (data[k].0 !in RttKeys ==> r.value[k].value == data[k].1)
  {
    if data != [] {
      var init := data[..|data| - 1];
      QuicheFieldRecordsSpec(st, record, init);
      assert forall k | 0 <= k < |init| :: init[k] == data[k];
    }
  }

  /** The records of one chunk: an empty chunk and a chunk that does not
      decode yield none, and so does any record other than
      recovery:metrics_updated; a decoded chunk that is not an object has no
      `get`.  `for key in data` visits nothing in an empty dict, list or
      string and fails on a value that is not iterable; a non-empty list or
      string is indexed by its own elements, which fails once the time has
      been scaled. */
  function QuicheChunkRecords(st: Setup, chunk: string, decode: Decoder): (r: Result<seq<Metric>>)
    ensures Strip(chunk) == [] ==> r == Ok([])
    ensures decode(Strip(chunk)).None? ==> r == Ok([])
    ensures r.Ok? && r.value != [] ==> (decode(Strip(chunk)).Some? &&
      GetOrNone(decode(Strip(chunk)).value, "name") == Ok(Str("recovery:metrics_updated")))
  {
    var text := Strip(chunk);
    if text == [] then Ok([])
    else match decode(text)
      case None => Ok([])
      case Some(record) =>
        var name :- GetOrNone(record, "name");
        if name != Str("recovery:metrics_updated") then Ok([])
        else
          var data :- Get(record, "data");
          var keys :- Elements(data);
          if keys == [] then Ok([])
          else if data.Obj? then QuicheFieldRecords(st, record, data.members)
          else
            var t :- Get(record, "time");
            var time :- Times1000(t);
            Err(TypeError)
  }

  /** A decoded recovery:metrics_updated record with a dict `data` yields the
      records of its fields (one per member, see QuicheFieldRecordsSpec); a
      decoded record of another name yields none; `data` that is empty yields
      none and `data` that is not iterable raises TypeError; a decoded value
      that is not a dict raises AttributeError. */
  lemma QuicheChunkSpec(st: Setup, chunk: string, decode: Decoder)
    requires Strip(chunk) != [] && decode(Strip(chunk)).Some?
    ensures var record := decode(Strip(chunk)).value;
      var r := QuicheChunkRecords(st, chunk, decode);
      && (!record.Obj? ==> r == Err(AttributeError))
      && (record.Obj? && GetOrNone(record, "name") != Ok(Str("recovery:metrics_updated")) ==> r == Ok([]))
      && (record.Obj? && GetOrNone(record, "name") == Ok(Str("recovery:metrics_updated")) ==>
            && (Get(record, "data").Err? ==> r == Err(KeyError))
            && (Get(record, "data").Ok? && Get(record, "data").value.Obj? ==>
                  r == QuicheFieldRecords(st, record, Get(record, "data").value.members))
            && (Get(record, "data").Ok? && Elements(Get(record, "data").value) == Ok([]) ==> r == Ok([]))
            && (Get(record, "data").Ok? && Elements(Get(record, "data").value).Err? ==> r == Err(TypeError)))
  {
    var record := decode(Strip(chunk)).value;
    GetOrNoneSpec(record, "name");
    GetSpec(record, "data");
  }

  /** The records of the chunks, in chunk order; the first failure fails all. */
  function QuicheChunksRecords(st: Setup, chunks: seq<string>, decode: Decoder): (r: Result<seq<Metric>>)
    ensures chunks == [] ==> r == Ok([])
  {
    if chunks == [] then Ok([])
    else Then(QuicheChunksRecords(st, chunks[..|chunks| - 1], decode), QuicheChunkRecords(st, chunks[|chunks| - 1], decode))
  }

  /** Every record of a chunk sequence carries the setup it was given. */
  lemma {:induction false} QuicheChunksCarry(st: Setup, chunks: seq<string>, decode: Decoder)
    ensures QuicheChunksRecords(st, chunks, decode).Ok? ==>
      forall m | m in QuicheChunksRecords(st, chunks, decode).value :: Carries(m, st)
  {
    if chunks != [] {
      QuicheChunksCarry(st, chunks[..|chunks| - 1], decode);
      var text := Strip(chunks[|chunks| - 1]);
      if text != [] && decode(text).Some? {
        var record := decode(text).value;
        if Get(record, "data").Ok? && Get(record, "data").value.Obj? {
          QuicheFieldRecordsSpec(st, record, Get(record, "data").value.members);
        }
      }
    }
  }

  /** evalQuicheSingleFile: name parse, then the content split at the record separator. */
  function QuicheFile(filename: string, content: string, decode: Decoder): Result<seq<Metric>>
  {
    var st :- ParseSetup(filename, ".sqlog");
    QuicheChunksRecords(st, Split(content, RecordSeparator), decode)
  }

  lemma QuicheChunksSnoc(st: Setup, chunks: seq<string>, chunk: string, decode: Decoder)
    ensures QuicheChunksRecords(st, chunks + [chunk], decode)
            == Then(QuicheChunksRecords(st, chunks, decode), QuicheChunkRecords(st, chunk, decode))
  {
    assert (chunks + [chunk])[..|chunks|] == chunks;
  }

  lemma QuicheChunksStep(st: Setup, chunks: seq<string>, i: nat, decode: Decoder)
    requires i < |chunks|
    ensures QuicheChunksRecords(st, chunks[..i + 1], decode)
            == Then(QuicheChunksRecords(st, chunks[..i], decode), QuicheChunkRecords(st, chunks[i], decode))
  {
    assert chunks[..i + 1] == chunks[..i] + [chunks[i]];
    QuicheChunksSnoc(st, chunks[..i], chunks[i], decode);
  }

  lemma {:induction false} QuicheChunksConcat(st: Setup, a: seq<string>, b: seq<string>, decode: Decoder)
    ensures QuicheChunksRecords(st, a + b, decode)
            == Then(QuicheChunksRecords(st, a, decode), QuicheChunksRecords(st, b, decode))
  {
    if b == [] {
      assert a + b == a;
      var x := QuicheChunksRecords(st, a, decode);
      if x.Ok? {
        assert x.value + [] == x.value;
      }
    } else {
      var b0, last := b[..|b| - 1], b[|b| - 1];
      assert a + b == (a + b0) + [last];
      QuicheChunksSnoc(st, a + b0, last, decode);
      QuicheChunksConcat(st, a, b0, decode);
      ThenAssociative(QuicheChunksRecords(st, a, decode), QuicheChunksRecords(st, b0, decode),
                      QuicheChunkRecords(st, last, decode));
    }
  }

  /** A chunk that does not decode is skipped: the chunks around it give the
      same records as if it were absent. */
  lemma MalformedChunkSkipped(st: Setup, before: seq<string>, chunk: string, after: seq<string>, decode: Decoder)
    requires decode(Strip(chunk)).None?
    ensures QuicheChunksRecords(st, before + [chunk] + after, decode)
            == QuicheChunksRecords(st, before + after, decode)
  {
    QuicheChunksConcat(st, before + [chunk], after, decode);
    QuicheChunksSnoc(st, before, chunk, decode);
    QuicheChunksConcat(st, before, after, decode);
    var x := QuicheChunksRecords(st, before, decode);
    if x.Ok? {
      assert x.value + [] == x.value;
    }
  }

  lemma {:induction false} QuicheFieldPrefixFails(st: Setup, record: Value, data: seq<(string, Value)>, i: nat)
    requires i <= |data| && QuicheFieldRecords(st, record, data[..i]).Err?
    ensures QuicheFieldRecords(st, record, data) == QuicheFieldRecords(st, record, data[..i])
    decreases |data| - i
  {
    if i < |data| {
      assert data[..i + 1][..i] == data[..i];
      QuicheFieldPrefixFails(st, record, data, i + 1);
    } else {
      assert data[..i] == data;
    }
  }

  lemma {:induction false} QuicheChunksPrefixFails(st: Setup, chunks: seq<string>, decode: Decoder, i: nat)
    requires i <= |chunks| && QuicheChunksRecords(st, chunks[..i], decode).Err?
    ensures QuicheChunksRecords(st, chunks, decode) == QuicheChunksRecords(st, chunks[..i], decode)
    decreases |chunks| - i
  {
    if i < |chunks| {
      assert chunks[..i + 1][..i] == chunks[..i];
      QuicheChunksPrefixFails(st, chunks, decode, i + 1);
    } else {
      assert chunks[..i] == chunks;
    }
  }

  /** The inner loop of evalQuicheSingleFile over the members of `data`. */
  method AppendQuicheFields(st: Setup, record: Value, data: seq<(string, Value)>, acc: seq<Metric>)
    returns (r: Result<seq<Metric>>)
    ensures r == Then(Ok(acc), QuicheFieldRecords(st, record, data))
  {
    var metrics := acc;
    var k := 0;
    while k < |data|
      invariant 0 <= k <= |data|
      invariant QuicheFieldRecords(st, record, data[..k]).Ok?
      invariant metrics == acc + QuicheFieldRecords(st, record, data[..k]).value
    {
      assert data[..k + 1][..k] == data[..k];
      var one := QuicheFieldRecord(st, record, data[k].0, data[k].1);
      if one.Err? {
        QuicheFieldPrefixFails(st, record, data, k + 1);
        return one;
      }
      metrics := metrics + one.value;
      k := k + 1;
    }
    assert data[..k] == data;
    r := Ok(metrics);
  }

  /** The body of the chunk loop: strip, skip the empty, skip what does not
      decode, filter by name, then the member loop. */
  method AppendChunkRecords(st: Setup, chunk: string, decode: Decoder, acc: seq<Metric>) returns (r: Result<seq<Metric>>)
    ensures r == Then(Ok(acc), QuicheChunkRecords(st, chunk, decode))
  {
    assert acc + [] == acc;
    var text := Strip(chunk);
    if text == [] { return Ok(acc); }
    var decoded := decode(text);
    if decoded.None? { return Ok(acc); }
    var record := decoded.value;
    var name := GetOrNone(record, "name");
    if name.Err? { return Err(name.error); }
    if name.value != Str("recovery:metrics_updated") { return Ok(acc); }
    var data := Get(record, "data");
    if data.Err? { return Err(data.error); }
    var keys := Elements(data.value);
    if keys.Err? { return Err(keys.error); }
    if keys.value == [] { return Ok(acc); }
    if !data.value.Obj? {
      var t := Get(record, "time");
      if t.Err? { return Err(t.error); }
      var time := Times1000(t.value);
      if time.Err? { return Err(time.error); }
      return Err(TypeError);
    }
    r := AppendQuicheFields(st, record, data.value.members, acc);
  }

  /** evalQuicheSingleFile: the chunk loop appending to `metrics_list`. */
  method EvalQuicheSingleFile(filename: string, content: string, decode: Decoder) returns (r: Result<seq<Metric>>)
    ensures r == QuicheFile(filename, content, decode)
  {
    var parsed := ParseSetup(filename, ".sqlog");
    if parsed.Err? { return Err(parsed.error); }
    var st := parsed.value;
    var chunks := Split(content, RecordSeparator);
    var metrics: seq<Metric> := [];
    var i := 0;
    while i < |chunks|
      invariant 0 <= i <= |chunks|
      invariant QuicheChunksRecords(st, chunks[..i], decode) == Ok(metrics)
    {
      QuicheChunksStep(st, chunks, i, decode);
      var step := AppendChunkRecords(st, chunks[i], decode, metrics);
      if step.Err? {
        QuicheChunksPrefixFails(st, chunks, decode, i + 1);
        return step;
      }
      metrics := step.value;
      i := i + 1;
    }
    assert chunks[..i] == chunks;
    r := Ok(metrics);
  }

  /** Every record of a file carries the operator, algorithm, size and
      iteration parsed from that file's own name. */
  lemma FileRecordsCarrySetup(filename: string, content: string, decode: Decoder)
    ensures PicoquicFile(filename, content, decode).Ok? ==>
      ParseSetup(filename, ".qlog").Ok? &&
      forall m | m in PicoquicFile(filename, content, decode).value :: Carries(m, ParseSetup(filename, ".qlog").value)
    ensures QuicheFile(filename, content, decode).Ok? ==>
      ParseSetup(filename, ".sqlog").Ok? &&
      forall m | m in QuicheFile(filename, content, decode).value :: Carries(m, ParseSetup(filename, ".sqlog").value)
  {
    var p := ParseSetup(filename, ".qlog");
    if p.Ok? && decode(content).Some? && TraceEvents(decode(content).value).Ok? {
      PicoquicRecordsCarry(p.value, TraceEvents(decode(content).value).value);
    }
    var q := ParseSetup(filename, ".sqlog");
    if q.Ok? {
      QuicheChunksCarry(q.value, Split(content, RecordSeparator), decode);
    }
  }
}
