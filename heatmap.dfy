/** The data-rate / latency heat-map experiment (heatmap/datarate-latency-heatmap.py):
    the shaping arithmetic (bandwidth-delay product and netem queue limit), the
    per-trial object size and Careful-Resume server environment, the renaming of
    the qlog files a trial leaves behind, and the evaluation that joins every
    client qlog with its one server qlog, classifies the Careful-Resume status
    and emits one row per "Received ..." line, followed by the plot-time checks. */
module Heatmap {
  import opened Outcomes
  import opened Strings
  import opened Sorting

  const MtuSize: nat := 1300
  const Datarates: seq<nat> := [10, 25, 50, 100, 200, 250, 500, 1000]   // Mbit/s
  const OneWayDelays: seq<nat> := [5, 10, 15, 30, 60, 75, 150, 300]     // ms

  // =====================================================================
  // Shaping arithmetic

  /** calculateBdp: `int(rate * 1e6 / 8 * delay / 1e3)`, the bytes in flight
      for a rate in Mbit/s over a delay in ms. */
  function CalculateBdp(datarateMbps: nat, delayMs: nat): nat
  {
    datarateMbps * 1000000 / 8 * delayMs / 1000
  }

  lemma BdpClosedForm(datarateMbps: nat, delayMs: nat)
    ensures CalculateBdp(datarateMbps, delayMs) == datarateMbps * delayMs * 125
  {
    var p := datarateMbps * delayMs;
    assert datarateMbps * 1000000 / 8 == datarateMbps * 125000;
    assert datarateMbps * 125000 * delayMs == p * 125000;
  }

  lemma BdpExample()
    ensures CalculateBdp(100, 100) == 1250000
  {
    BdpClosedForm(100, 100);
  }

  lemma BdpMonotone(r1: nat, d1: nat, r2: nat, d2: nat)
    requires r1 <= r2 && d1 <= d2
    ensures CalculateBdp(r1, d1) <= CalculateBdp(r2, d2)
  {
    BdpClosedForm(r1, d1);
    BdpClosedForm(r2, d2);
    MulMonotone(r1, d1, r2, d2);
  }

  lemma MulMonotone(a: nat, b: nat, c: nat, d: nat)
    requires a <= c && b <= d
    ensures a * b <= c * d
  {
    assert a * b <= c * b by {
      assert c * b - a * b == (c - a) * b;
    }
    assert c * b <= c * d by {
      assert c * d - c * b == c * (d - b);
    }
  }

  /** setNetem: `int(calculateBdp(rate, 2 * owd) * 2 / mtuSize)`, the queue
      limit in packets (twice the round-trip BDP, not clamped). */
  function NetemLimit(datarateMbps: nat, owdMs: nat): nat
  {
    CalculateBdp(datarateMbps, 2 * owdMs) * 2 / MtuSize
  }

  lemma NetemLimitClosedForm(datarateMbps: nat, owdMs: nat)
    ensures NetemLimit(datarateMbps, owdMs) == 5 * (datarateMbps * owdMs) / 13
  {
    var x := datarateMbps * owdMs;
    BdpClosedForm(datarateMbps, 2 * owdMs);
    assert datarateMbps * (2 * owdMs) * 125 == 250 * x;
    assert 500 * x / 1300 == 5 * x / 13;
  }

  /** Because nothing clamps it, the limit is zero exactly for tiny rate-delay products. */
  lemma NetemLimitZero(datarateMbps: nat, owdMs: nat)
    ensures NetemLimit(datarateMbps, owdMs) == 0 <==> datarateMbps * owdMs < 3
  {
    NetemLimitClosedForm(datarateMbps, owdMs);
  }

  /** Every point of the measured sweep gets a queue of at least 19 packets. */
  lemma SweepLimits(datarateMbps: nat, owdMs: nat)
    requires datarateMbps in Datarates && owdMs in OneWayDelays
    ensures NetemLimit(datarateMbps, owdMs) >= 19
  {
    NetemLimitClosedForm(datarateMbps, owdMs);
    MulMonotone(10, 5, datarateMbps, owdMs);
  }

  // =====================================================================
  // The measurement sweep (runMeasurements, runPicoquicServer)

  /** The environment runPicoquicServer prefixes to the server command. */
  datatype ServerEnv =
    | NoCarefulResume
    | CarefulResumeEnv(previousRttUs: nat, previousCwndBytes: nat)

  function ServerEnvFor(datarate: nat, owd: nat, cr: bool): ServerEnv
  {
    if cr then CarefulResumeEnv(owd * 2 * 1000, CalculateBdp(datarate, owd * 2)) else NoCarefulResume
  }

  /** One trial of the sweep: the shaping it runs under, the object the client
      requests and the server environment. */
  datatype Trial = Trial(datarate: nat, owd: nat, iteration: nat,
                         queueLimit: nat, objectSize: nat, serverEnv: ServerEnv)

  function TrialFor(datarate: nat, owd: nat, iteration: nat, cr: bool): Trial
  {
    Trial(datarate, owd, iteration, NetemLimit(datarate, owd),
          CalculateBdp(datarate, 2 * owd), ServerEnvFor(datarate, owd, cr))
  }

  function PlanIterations(datarate: nat, owd: nat, n: nat, cr: bool): (ts: seq<Trial>)
    ensures |ts| == n
  {
    if n == 0 then [] else PlanIterations(datarate, owd, n - 1, cr) + [TrialFor(datarate, owd, n - 1, cr)]
  }

  function PlanDelays(datarate: nat, owds: seq<nat>, n: nat, cr: bool): seq<Trial>
  {
    if owds == [] then []
    else PlanDelays(datarate, owds[..|owds| - 1], n, cr) + PlanIterations(datarate, owds[|owds| - 1], n, cr)
  }

  function PlanRates(rates: seq<nat>, owds: seq<nat>, n: nat, cr: bool): seq<Trial>
  {
    if rates == [] then []
    else PlanRates(rates[..|rates| - 1], owds, n, cr) + PlanDelays(rates[|rates| - 1], owds, n, cr)
  }

  /** The trials runMeasurements performs, in order. */
  function MeasurementPlan(iterations: nat, cr: bool): seq<Trial>
  {
    PlanRates(Datarates, OneWayDelays, iterations, cr)
  }

  /** The iterations of one shaping setting: the innermost loop of runMeasurements. */
  method RunIterations(datarate: nat, owd: nat, iterations: nat, cr: bool) returns (trials: seq<Trial>)
    ensures trials == PlanIterations(datarate, owd, iterations, cr)
  {
    var limit := NetemLimit(datarate, owd);
    var size := 1 * CalculateBdp(datarate, 2 * owd);
    var env := ServerEnvFor(datarate, owd, cr);
    trials := [];
    var iteration := 0;
    while iteration < iterations
      invariant 0 <= iteration <= iterations
      invariant trials == PlanIterations(datarate, owd, iteration, cr)
    {
      trials := trials + [Trial(datarate, owd, iteration, limit, size, env)];
      iteration := iteration + 1;
    }
  }

  /** All delays for one data rate: the middle loop of runMeasurements. */
  method RunDelays(datarate: nat, owds: seq<nat>, iterations: nat, cr: bool) returns (trials: seq<Trial>)
    ensures trials == PlanDelays(datarate, owds, iterations, cr)
  {
    trials := [];
    var j := 0;
    while j < |owds|
      invariant 0 <= j <= |owds|
      invariant trials == PlanDelays(datarate, owds[..j], iterations, cr)
    {
      var more := RunIterations(datarate, owds[j], iterations, cr);
      assert owds[..j + 1][..j] == owds[..j];
      trials := trials + more;
      j := j + 1;
    }
    assert owds[..j] == owds;
  }

  /** runMeasurements without its processes: the shaping, object size and
      server environment of every trial, in sweep order. */
  method RunMeasurements(iterations: nat, cr: bool) returns (trials: seq<Trial>)
    ensures trials == MeasurementPlan(iterations, cr)
  {
    var rates := Datarates;
    trials := [];
    var i := 0;
    while i < |rates|
      invariant 0 <= i <= |rates|
      invariant trials == PlanRates(rates[..i], OneWayDelays, iterations, cr)
    {
      var more := RunDelays(rates[i], OneWayDelays, iterations, cr);
      assert rates[..i + 1][..i] == rates[..i];
      trials := trials + more;
      i := i + 1;
    }
    assert rates[..i] == rates;
  }

  /** What every trial of a sweep obeys: the queue limit of its shaping, an
      object of one round-trip BDP, and with Careful Resume on a previous RTT
      of 2*owd in microseconds and a previous window equal to that object. */
  ghost predicate ConsistentTrial(t: Trial, cr: bool)
  {
    && t.queueLimit == NetemLimit(t.datarate, t.owd)
    && t.objectSize == CalculateBdp(t.datarate, 2 * t.owd)
    && t.objectSize == t.datarate * t.owd * 250
    && (cr ==> t.serverEnv == CarefulResumeEnv(2 * t.owd * 1000, t.objectSize))
    && (!cr ==> t.serverEnv == NoCarefulResume)
  }

  lemma {:induction false} PlanIterationsConsistent(datarate: nat, owd: nat, n: nat, cr: bool)
    ensures forall k | 0 <= k < n :: var t := PlanIterations(datarate, owd, n, cr)[k];
      ConsistentTrial(t, cr) && t.datarate == datarate && t.owd == owd && t.iteration == k
  {
    if n > 0 {
      PlanIterationsConsistent(datarate, owd, n - 1, cr);
      BdpClosedForm(datarate, 2 * owd);
      assert 2 * owd == owd * 2;
      assert datarate * (2 * owd) * 125 == datarate * owd * 250;
    }
  }

  lemma {:induction false} PlanDelaysConsistent(datarate: nat, owds: seq<nat>, n: nat, cr: bool)
    ensures forall t | t in PlanDelays(datarate, owds, n, cr) ::
      ConsistentTrial(t, cr) && t.datarate == datarate && t.owd in owds && t.iteration < n
  {
    if owds != [] {
      PlanDelaysConsistent(datarate, owds[..|owds| - 1], n, cr);
      PlanIterationsConsistent(datarate, owds[|owds| - 1], n, cr);
      forall t | t in PlanIterations(datarate, owds[|owds| - 1], n, cr)
        ensures ConsistentTrial(t, cr) && t.datarate == datarate && t.owd in owds && t.iteration < n
      {
        var k :| 0 <= k < n && PlanIterations(datarate, owds[|owds| - 1], n, cr)[k] == t;
      }
    }
  }

  lemma {:induction false} PlanRatesConsistent(rates: seq<nat>, owds: seq<nat>, n: nat, cr: bool)
    ensures forall t | t in PlanRates(rates, owds, n, cr) ::
      ConsistentTrial(t, cr) && t.datarate in rates && t.owd in owds && t.iteration < n
  {
    if rates != [] {
      PlanRatesConsistent(rates[..|rates| - 1], owds, n, cr);
      PlanDelaysConsistent(rates[|rates| - 1], owds, n, cr);
    }
  }

  /** Every trial of the sweep is consistent, lies on the sweep grid and gets a
      queue of at least 19 packets. */
  lemma MeasurementPlanConsistent(iterations: nat, cr: bool)
    ensures forall t | t in MeasurementPlan(iterations, cr) ::
      && ConsistentTrial(t, cr) && t.datarate in Datarates && t.owd in OneWayDelays
      && t.iteration < iterations && t.queueLimit >= 19
  {
    PlanRatesConsistent(Datarates, OneWayDelays, iterations, cr);
    forall t | t in MeasurementPlan(iterations, cr)
      ensures t.queueLimit >= 19
    {
      SweepLimits(t.datarate, t.owd);
    }
  }

  // =====================================================================
  // Renaming the qlog files of a trial

  /** `glob("*" + suffix)` in one directory: the suffix, and no hidden name. */
  predicate GlobSuffix(name: string, suffix: string)
  {
    EndsWith(name, suffix) && !StartsWith(name, ".")
  }

  /** The name a trial's qlog file is given: `rate{r}_delay{owd}_` + its base name. */
  function RenamedName(datarate: nat, owd: nat, basename: string): string
  {
    "rate" + NatToString(datarate) + "_delay" + NatToString(owd) + "_" + basename
  }

  /** The file suffix `.{role}.qlog` of a role. */
  function RoleSuffix(role: string): string { "." + role + ".qlog" }

  /** The new names of the files `*.{role}.qlog` of a listing, in listing order. */
  function RenameAll(datarate: nat, owd: nat, names: seq<string>, role: string): (r: seq<string>)
    ensures |r| <= |names|
    ensures forall i | 0 <= i < |names| && GlobSuffix(names[i], RoleSuffix(role)) ::
      RenamedName(datarate, owd, names[i]) in r
    ensures forall x | x in r :: exists i | 0 <= i < |names| ::
      GlobSuffix(names[i], RoleSuffix(role)) && x == RenamedName(datarate, owd, names[i])
  {
    if names == [] then []
    else if GlobSuffix(names[0], RoleSuffix(role)) then
      [RenamedName(datarate, owd, names[0])] + RenameAll(datarate, owd, names[1..], role)
    else RenameAll(datarate, owd, names[1..], role)
  }

  /** Renaming a listing renames its parts one after the other: each name on
      its own gives its new name when it matches the role and nothing
      otherwise, so the result lists exactly the matching names, renamed, in
      listing order. */
  lemma {:induction false} RenameAllConcat(datarate: nat, owd: nat, a: seq<string>, b: seq<string>, role: string)
    ensures RenameAll(datarate, owd, a + b, role) == RenameAll(datarate, owd, a, role) + RenameAll(datarate, owd, b, role)
    ensures forall name :: RenameAll(datarate, owd, [name], role)
                           == (if GlobSuffix(name, RoleSuffix(role)) then [RenamedName(datarate, owd, name)] else [])
  {
    if a != [] {
      var ab := a + b;
      assert ab[0] == a[0] && ab[1..] == a[1..] + b;
      RenameAllConcat(datarate, owd, a[1..], b, role);
    } else {
      assert a + b == b;
    }
    forall name ensures RenameAll(datarate, owd, [name], role) ==
      (if GlobSuffix(name, RoleSuffix(role)) then [RenamedName(datarate, owd, name)] else [])
    {
      assert [name][1..] == [];
    }
  }

  /** The new names of the server qlogs, then of the client qlogs, left in the
      result directory by one trial. */
  function RenamedLogs(datarate: nat, owd: nat, listing: seq<string>): (r: seq<string>)
    ensures |r| <= 2 * |listing|
  {
    RenameAll(datarate, owd, listing, "server") + RenameAll(datarate, owd, listing, "client")
  }

  /** The qlogs the rename loop moves: `*.server.qlog` and `*.client.qlog`. */
  predicate IsTrialQlog(name: string)
  {
    GlobSuffix(name, RoleSuffix("server")) || GlobSuffix(name, RoleSuffix("client"))
  }

  /** Every server or client qlog of the listing is renamed, and nothing else is. */
  lemma RenamedLogsMembers(datarate: nat, owd: nat, listing: seq<string>, x: string)
    ensures x in RenamedLogs(datarate, owd, listing) <==>
      exists i | 0 <= i < |listing| :: IsTrialQlog(listing[i]) && x == RenamedName(datarate, owd, listing[i])
  {
    var server := RenameAll(datarate, owd, listing, "server");
    var client := RenameAll(datarate, owd, listing, "client");
    assert RenamedLogs(datarate, owd, listing) == server + client;
    if x in server + client {
      var role := if x in server then "server" else "client";
      var i :| 0 <= i < |listing| && GlobSuffix(listing[i], RoleSuffix(role)) && x == RenamedName(datarate, owd, listing[i]);
      assert IsTrialQlog(listing[i]);
    }
    if exists i | 0 <= i < |listing| :: IsTrialQlog(listing[i]) && x == RenamedName(datarate, owd, listing[i]) {
      var i :| 0 <= i < |listing| && IsTrialQlog(listing[i]) && x == RenamedName(datarate, owd, listing[i]);
      if GlobSuffix(listing[i], RoleSuffix("server")) {
        assert x in server;
      } else {
        assert x in client;
      }
    }
  }

  lemma RenamedKeepsSuffix(datarate: nat, owd: nat, name: string, suffix: string)
    requires EndsWith(name, suffix)
    ensures EndsWith(RenamedName(datarate, owd, name), suffix)
  {
    var p := "rate" + NatToString(datarate) + "_delay" + NatToString(owd) + "_";
    var q := p + name;
    assert RenamedName(datarate, owd, name) == q;
    assert q[|q| - |suffix|..] == name[|name| - |suffix|..];
  }

  lemma RenamedRoleSuffix(datarate: nat, owd: nat, listing: seq<string>, role: string, x: string)
    requires x in RenameAll(datarate, owd, listing, role)
    ensures EndsWith(x, RoleSuffix(role))
  {
    var i :| 0 <= i < |listing| && GlobSuffix(listing[i], RoleSuffix(role)) && x == RenamedName(datarate, owd, listing[i]);
    RenamedKeepsSuffix(datarate, owd, listing[i], RoleSuffix(role));
  }

  /** The server loop runs first: once a renamed client qlog appears in the
      result, every later name is a renamed client qlog too. */
  lemma RenamedLogsServerFirst(datarate: nat, owd: nat, listing: seq<string>)
    ensures var r := RenamedLogs(datarate, owd, listing);
      forall j, k | 0 <= j < k < |r| && EndsWith(r[j], RoleSuffix("client")) :: EndsWith(r[k], RoleSuffix("client"))
  {
    var server := RenameAll(datarate, owd, listing, "server");
    var client := RenameAll(datarate, owd, listing, "client");
    var r := server + client;
    var sv, cl := RoleSuffix("server"), RoleSuffix("client");
    assert |sv| == |cl| && sv[1] != cl[1];
    forall j | 0 <= j < |server| ensures !EndsWith(r[j], cl) {
      assert r[j] == server[j];
      RenamedRoleSuffix(datarate, owd, listing, "server", server[j]);
    }
    forall k | |server| <= k < |r| ensures EndsWith(r[k], cl) {
      assert r[k] == client[k - |server|];
      RenamedRoleSuffix(datarate, owd, listing, "client", client[k - |server|]);
    }
  }

  // =====================================================================
  // Evaluation (runEval)

  predicate IsLowerHex(c: char) { IsDigit(c) || 'a' <= c <= 'f' }

  /** The longest hex group `k <= h` after which `.client.qlog` follows, each
      `.` matching any character but a line feed (the regex backtracks from
      the longest). */
  function ClientTail(w: string, h: nat): (k: Option<nat>)
    ensures k.Some? ==> 1 <= k.value <= h
  {
    if h == 0 then None
    else if h + 12 <= |w| && w[h] != '\n' && w[h + 1..h + 7] == "client" && w[h + 7] != '\n' && w[h + 8..h + 12] == "qlog"
    then Some(h)
    else ClientTail(w, h - 1)
  }

  /** `([a-f0-9]+).client.qlog` at the start of `w`. */
  function HexAndTail(w: string): Option<string>
  {
    match ClientTail(w, Span(w, IsLowerHex))
    case None => None
    case Some(k) => Some(w[..k])
  }

  /** `(\d+)_([a-f0-9]+).client.qlog` at the start of `u`. */
  function DelayAndTail(u: string): Option<(nat, string)>
  {
    var d := Span(u, IsDigit);
    if d == 0 || !StartsWith(u[d..], "_") then None
    else match HexAndTail(u[d + 1..])
      case None => None
      case Some(cid) => Some((DigitsValue(u[..d]), cid))
  }

  /** `(\d+)_delay(\d+)_([a-f0-9]+).client.qlog` at the start of `t`. */
  function RateAndTail(t: string): Option<(nat, nat, string)>
  {
    var d := Span(t, IsDigit);
    if d == 0 || !StartsWith(t[d..], "_delay") then None
    else match DelayAndTail(t[d + 6..])
      case None => None
      case Some((owd, cid)) => Some((DigitsValue(t[..d]), owd, cid))
  }

  /** `rate(\d+)_delay(\d+)_([a-f0-9]+).client.qlog` matched at the start of `s`. */
  function MatchClientAt(s: string): Option<(nat, nat, string)>
  {
    if StartsWith(s, "rate") then RateAndTail(s[4..]) else None
  }

  /** `re.search` of the client-name pattern: the leftmost match. */
  function ParseClientName(s: string): Option<(nat, nat, string)>
  {
    match MatchClientAt(s)
    case Some(m) => Some(m)
    case None => if s == [] then None else ParseClientName(s[1..])
  }

  predicate AllLowerHex(s: string) { forall i | 0 <= i < |s| :: IsLowerHex(s[i]) }

  lemma HexAndTailOf(cid: string)
    requires |cid| > 0 && AllLowerHex(cid)
    ensures HexAndTail(cid + ".client.qlog") == Some(cid)
  {
    var t := ".client.qlog";
    var w := cid + t;
    assert w[..|cid|] == cid;
    SpanOfConcat(cid, t, IsLowerHex);
    assert w[|cid|] == '.' && w[|cid| + 7] == '.';
    ConcatSlice(cid, t, 1, 7);
    assert t[1..7] == "client";
    ConcatSlice(cid, t, 8, 12);
    assert t[8..12] == "qlog";
  }

  lemma ConcatSlice(x: string, t: string, a: nat, b: nat)
    requires a <= b <= |t|
    ensures (x + t)[|x| + a..|x| + b] == t[a..b]
  {
    assert forall i | 0 <= i < b - a :: (x + t)[|x| + a..|x| + b][i] == t[a..b][i];
  }

  lemma DelayAndTailOf(owd: nat, w: string)
    requires HexAndTail(w).Some?
    ensures DelayAndTail(NatToString(owd) + "_" + w) == Some((owd, HexAndTail(w).value))
  {
    var b := NatToString(owd);
    var u := b + "_" + w;
    assert u == b + ("_" + w);
    SpanOfConcat(b, "_" + w, IsDigit);
    assert u[|b|..] == "_" + w;
    assert u[..|b|] == b;
    assert u[|b| + 1..] == w;
    NatToStringValue(owd);
  }

  lemma RateAndTailOf(datarate: nat, u: string)
    requires DelayAndTail(u).Some?
    ensures RateAndTail(NatToString(datarate) + "_delay" + u)
            == Some((datarate, DelayAndTail(u).value.0, DelayAndTail(u).value.1))
  {
    var a := NatToString(datarate);
    var t := a + "_delay" + u;
    assert t == a + ("_delay" + u);
    SpanOfConcat(a, "_delay" + u, IsDigit);
    var d := Span(t, IsDigit);
    assert d == |a|;
    assert t[d..] == "_delay" + u;
    assert StartsWith(t[d..], "_delay") by {
      assert t[d..][..6] == "_delay";
    }
    assert t[d + 6..] == u;
    assert t[..d] == a;
    NatToStringValue(datarate);
  }

  lemma MatchClientAtOf(datarate: nat, u: string)
    requires DelayAndTail(u).Some?
    ensures MatchClientAt("rate" + NatToString(datarate) + "_delay" + u)
            == Some((datarate, DelayAndTail(u).value.0, DelayAndTail(u).value.1))
  {
    var t := NatToString(datarate) + "_delay" + u;
    var s := "rate" + NatToString(datarate) + "_delay" + u;
    assert s == "rate" + t;
    assert StartsWith(s, "rate") by {
      assert s[..4] == "rate";
    }
    assert s[4..] == t;
    RateAndTailOf(datarate, u);
  }

  /** The renamed client qlog parses back to the rate, delay and connection id
      it was named after. */
  lemma ClientNameRoundTrip(datarate: nat, owd: nat, cid: string)
    requires |cid| > 0 && AllLowerHex(cid)
    ensures ParseClientName(RenamedName(datarate, owd, cid + ".client.qlog")) == Some((datarate, owd, cid))
  {
    var w := cid + ".client.qlog";
    var u := NatToString(owd) + "_" + w;
    HexAndTailOf(cid);
    DelayAndTailOf(owd, w);
    assert RenamedName(datarate, owd, w) == "rate" + NatToString(datarate) + "_delay" + u;
    MatchClientAtOf(datarate, u);
  }

  /** The client qlogs runEval walks: `glob("*.client.qlog")`. */
  predicate IsClientQlog(name: string) { GlobSuffix(name, ".client.qlog") }

  /** A log file of the evaluated directory: its name and its text. */
  datatype LogFile = LogFile(name: string, content: string)

  /** `glob(f"rate{r}_delay{owd}_{cid}.*.server.qlog")`. */
  predicate IsServerQlogOf(name: string, datarate: nat, owd: nat, cid: string)
  {
    var prefix := "rate" + NatToString(datarate) + "_delay" + NatToString(owd) + "_" + cid + ".";
    StartsWith(name, prefix) && EndsWith(name, ".server.qlog") && |prefix| + 12 <= |name|
  }

  function ServerLogs(logs: seq<LogFile>, datarate: nat, owd: nat, cid: string): (r: seq<LogFile>)
    ensures |r| <= |logs|
    ensures forall f | f in r :: f in logs && IsServerQlogOf(f.name, datarate, owd, cid)
    ensures forall f | f in logs && IsServerQlogOf(f.name, datarate, owd, cid) :: f in r
  {
    if logs == [] then []
    else if IsServerQlogOf(logs[0].name, datarate, owd, cid) then [logs[0]] + ServerLogs(logs[1..], datarate, owd, cid)
    else ServerLogs(logs[1..], datarate, owd, cid)
  }

  /** The "Careful Resume" column of a trial. */
  datatype CrStatus = SafeRetreat | Enabled | Disabled

  /** The server file decides: any `safe_retreat` in it wins over the flag. */
  function CrStatusOf(serverText: string, cr: bool): (st: CrStatus)
    ensures st == SafeRetreat <==> Contains(serverText, "safe_retreat")
    ensures st == Enabled <==> !Contains(serverText, "safe_retreat") && cr
    ensures st == Disabled <==> !Contains(serverText, "safe_retreat") && !cr
  {
    if Contains(serverText, "safe_retreat") then SafeRetreat
    else if cr then Enabled
    else Disabled
  }

  /** The status that cannot occur under a flag, and that runPlot rejects. */
  function ExcludedStatus(cr: bool): CrStatus { if cr then Disabled else Enabled }

  /** One row of results.csv; the three matched groups stay strings. */
  datatype Row = Row(datarate: nat, owd: nat, rtt: nat, bdp: nat, reportedBytes: string,
                     connectionId: string, status: CrStatus, duration: string, goodput: string)

  predicate IsDecimalChar(c: char) { IsDigit(c) || c == '.' }

  /** `Received (\d+) bytes in ([\d.]+) seconds, ([\d.]+) Mbps.` matched at the
      start of a line (no newline inside: lines are split at newlines). */
  function ReceivedAt(s: string): Option<(string, string, string)>
  {
    if !StartsWith(s, "Received ") then None
    else
      var a := s[9..];
      var n1 := Span(a, IsDigit);
      if n1 == 0 || !StartsWith(a[n1..], " bytes in ") then None
      else
        var b := a[n1 + 10..];
        var n2 := Span(b, IsDecimalChar);
        if n2 == 0 || !StartsWith(b[n2..], " seconds, ") then None
        else
          var c := b[n2 + 10..];
          var n3 := Span(c, IsDecimalChar);
          if n3 == 0 || !StartsWith(c[n3..], " Mbps") || |c| < n3 + 6 || c[n3 + 5] == '\n' then None
          else Some((a[..n1], b[..n2], c[..n3]))
  }

  /** `re.search` of the summary pattern in one line: the leftmost match. */
  function SearchReceived(line: string): Option<(string, string, string)>
  {
    match ReceivedAt(line)
    case Some(m) => Some(m)
    case None => if line == [] then None else SearchReceived(line[1..])
  }

  function Lines(content: string): seq<string> { Split(content, '\n') }

  function MakeRow(datarate: nat, owd: nat, cid: string, status: CrStatus, m: (string, string, string)): Row
  {
    Row(datarate, owd, 2 * owd, CalculateBdp(datarate, 2 * owd), m.0, cid, status, m.1, m.2)
  }

  /** The number of points in `s`. */
  function DotCount(s: string): (n: nat)
    ensures n <= |s|
  {
    if s == [] then 0 else (if s[|s| - 1] == '.' then 1 else 0) + DotCount(s[..|s| - 1])
  }

  /** Whether `float` accepts a capture of `[\d.]+` (digits and points only):
      it needs at most one point and is not made of points alone. */
  predicate FloatLiteral(s: string) { DotCount(s) <= 1 && DotCount(s) < |s| }

  /** For a capture of `[\d.]+`, "not made of points alone" means "holds a
      digit". */
  lemma {:induction false} FloatLiteralHasDigit(s: string)
    requires forall i | 0 <= i < |s| :: IsDecimalChar(s[i])
    ensures DotCount(s) < |s| <==> exists i | 0 <= i < |s| :: IsDigit(s[i])
  {
    if s != [] {
      var n := |s| - 1;
      FloatLiteralHasDigit(s[..n]);
      if exists i | 0 <= i < n :: IsDigit(s[..n][i]) {
        var i :| 0 <= i < n && IsDigit(s[..n][i]);
        assert IsDigit(s[i]);
      }
      if exists i | 0 <= i < |s| :: IsDigit(s[i]) {
        var i :| 0 <= i < |s| && IsDigit(s[i]);
        if i < n { assert IsDigit(s[..n][i]); }
      }
    }
  }

  /** The exception `float(goodput) / datarate` raises, if any: ValueError from
      `float`, then ZeroDivisionError for a zero rate. */
  function GoodputError(datarate: nat, goodput: string): (e: Option<PyError>)
    ensures e.None? <==> FloatLiteral(goodput) && datarate != 0
    ensures e == Some(ValueError) <==> !FloatLiteral(goodput)
  {
    if !FloatLiteral(goodput) then Some(ValueError)
    else if datarate == 0 then Some(ZeroDivisionError)
    else None
  }

  /** A line runEval gets past: it carries no summary, or one whose goodput
      divides by the rate. */
  predicate LineOk(datarate: nat, line: string)
  {
    match SearchReceived(line)
    case None => true
    case Some(m) => GoodputError(datarate, m.2).None?
  }

  /** Every line of a file gets past runEval. */
  predicate AllLinesOk(datarate: nat, lines: seq<string>)
  {
    forall k | 0 <= k < |lines| :: LineOk(datarate, lines[k])
  }

  /** No line of a file carries the summary. */
  predicate NoSummary(lines: seq<string>)
  {
    forall k | 0 <= k < |lines| :: SearchReceived(lines[k]).None?
  }

  /** The rows so far, after one more line. */
  function LineStep(datarate: nat, owd: nat, cid: string, status: CrStatus, prev: seq<Row>, line: string): Result<seq<Row>>
  {
    match SearchReceived(line)
    case Some(m) =>
      (match GoodputError(datarate, m.2)
       case Some(e) => Err(e)
       case None => Ok(prev + [MakeRow(datarate, owd, cid, status, m)]))
    case None => Ok(prev)
  }

  /** The rows of one client file: one per line that carries the summary. The
      first such line whose goodput cannot be divided by the rate fails the
      whole file. */
  function LineRows(datarate: nat, owd: nat, cid: string, status: CrStatus, lines: seq<string>): (r: Result<seq<Row>>)
    ensures r.Ok? <==> AllLinesOk(datarate, lines)
    ensures r.Err? ==> r.error == ValueError || r.error == ZeroDivisionError
    ensures r.Ok? ==> |r.value| <= |lines|
    ensures r.Ok? ==> (r.value == [] <==> NoSummary(lines))
    ensures r.Ok? ==> forall row | row in r.value ::
      && row.datarate == datarate && row.owd == owd && row.rtt == 2 * owd
      && row.bdp == CalculateBdp(datarate, 2 * owd) && row.connectionId == cid && row.status == status
  {
    if lines == [] then Ok([])
    else
      var prev :- LineRows(datarate, owd, cid, status, lines[..|lines| - 1]);
      assert forall k | 0 <= k < |lines| - 1 :: lines[..|lines| - 1][k] == lines[k];
      LineStep(datarate, owd, cid, status, prev, lines[|lines| - 1])
  }

  lemma LineRowsPrefix(datarate: nat, owd: nat, cid: string, status: CrStatus, lines: seq<string>, j: nat)
    requires j < |lines|
    ensures LineRows(datarate, owd, cid, status, lines[..j]).Err? ==>
      LineRows(datarate, owd, cid, status, lines[..j + 1]) == LineRows(datarate, owd, cid, status, lines[..j])
    ensures LineRows(datarate, owd, cid, status, lines[..j]).Ok? ==>
      LineRows(datarate, owd, cid, status, lines[..j + 1])
      == LineStep(datarate, owd, cid, status, LineRows(datarate, owd, cid, status, lines[..j]).value, lines[j])
  {
    assert lines[..j + 1][..j] == lines[..j];
    assert lines[..j + 1][j] == lines[j];
  }

  /** The lines of a file that carry the summary, in file order. */
  function SummaryLines(lines: seq<string>): (r: seq<string>)
    ensures |r| <= |lines|
    ensures forall j | 0 <= j < |r| :: SearchReceived(r[j]).Some?
  {
    if lines == [] then []
    else
      var last := lines[|lines| - 1];
      SummaryLines(lines[..|lines| - 1]) + (if SearchReceived(last).Some? then [last] else [])
  }

  /** The summary lines are exactly the lines the pattern is found in. */
  lemma {:induction false} SummaryLinesMembers(lines: seq<string>, l: string)
    ensures l in SummaryLines(lines) <==> l in lines && SearchReceived(l).Some?
  {
    if lines != [] {
      var prefix := lines[..|lines| - 1];
      SummaryLinesMembers(prefix, l);
      assert lines == prefix + [lines[|lines| - 1]];
    }
  }

  /** `rows` holds one row per line of `summaries`, in order, each built
      from that line's captures. */
  predicate RowsOfSummaries(datarate: nat, owd: nat, cid: string, status: CrStatus,
                            rows: seq<Row>, summaries: seq<string>)
  {
    && |rows| == |summaries|
    && forall j | 0 <= j < |rows| ::
         SearchReceived(summaries[j]).Some? && rows[j] == MakeRow(datarate, owd, cid, status, SearchReceived(summaries[j]).value)
  }

  lemma RowsOfSummariesAppend(datarate: nat, owd: nat, cid: string, status: CrStatus,
                              rows: seq<Row>, summaries: seq<string>, line: string)
    requires RowsOfSummaries(datarate, owd, cid, status, rows, summaries) && SearchReceived(line).Some?
    ensures RowsOfSummaries(datarate, owd, cid, status,
                            rows + [MakeRow(datarate, owd, cid, status, SearchReceived(line).value)], summaries + [line])
  {
    var rows', summaries' := rows + [MakeRow(datarate, owd, cid, status, SearchReceived(line).value)], summaries + [line];
    forall j | 0 <= j < |rows'|
      ensures SearchReceived(summaries'[j]).Some? && rows'[j] == MakeRow(datarate, owd, cid, status, SearchReceived(summaries'[j]).value)
    {
      if j < |rows| {
        assert rows'[j] == rows[j] && summaries'[j] == summaries[j];
      }
    }
  }

  /** A file that succeeds gives one row per summary line, in file order, each
      carrying that line's byte count, duration and goodput captures. */
  lemma {:induction false} LineRowsPerSummary(datarate: nat, owd: nat, cid: string, status: CrStatus, lines: seq<string>)
    requires LineRows(datarate, owd, cid, status, lines).Ok?
    ensures RowsOfSummaries(datarate, owd, cid, status, LineRows(datarate, owd, cid, status, lines).value, SummaryLines(lines))
  {
    if lines != [] {
      var n := |lines| - 1;
      var last := lines[n];
      assert lines[..n + 1] == lines;
      LineRowsPrefix(datarate, owd, cid, status, lines, n);
      var prev := LineRows(datarate, owd, cid, status, lines[..n]);
      assert prev.Ok?;
      LineRowsPerSummary(datarate, owd, cid, status, lines[..n]);
      var sp := SummaryLines(lines[..n]);
      if SearchReceived(last).Some? {
        assert SummaryLines(lines) == sp + [last];
        RowsOfSummariesAppend(datarate, owd, cid, status, prev.value, sp, last);
      } else {
        assert SummaryLines(lines) == sp + [];
        assert sp + [] == sp;
      }
    }
  }

  /** The error of a file is that of its first line runEval cannot get past. */
  lemma {:induction false} LineRowsFirstError(datarate: nat, owd: nat, cid: string, status: CrStatus,
                                              lines: seq<string>, k: nat)
    requires k < |lines| && !LineOk(datarate, lines[k])
    requires forall j | 0 <= j < k :: LineOk(datarate, lines[j])
    ensures LineRows(datarate, owd, cid, status, lines)
         == Err(GoodputError(datarate, SearchReceived(lines[k]).value.2).value)
  {
    var n := |lines| - 1;
    var prefix := lines[..n];
    assert lines[..n + 1] == lines;
    LineRowsPrefix(datarate, owd, cid, status, lines, n);
    if k < n {
      assert forall j | 0 <= j < k :: prefix[j] == lines[j];
      assert prefix[k] == lines[k];
      LineRowsFirstError(datarate, owd, cid, status, prefix, k);
    } else {
      assert forall j | 0 <= j < n :: prefix[j] == lines[j];
      var prev := LineRows(datarate, owd, cid, status, prefix);
      assert prev.Ok?;
      LineStepFails(datarate, owd, cid, status, prev.value, lines[n]);
    }
  }

  lemma LineStepFails(datarate: nat, owd: nat, cid: string, status: CrStatus, prev: seq<Row>, line: string)
    requires !LineOk(datarate, line)
    ensures LineStep(datarate, owd, cid, status, prev, line)
         == Err(GoodputError(datarate, SearchReceived(line).value.2).value)
  {
  }

  lemma {:induction false} LineRowsFailureSticks(datarate: nat, owd: nat, cid: string, status: CrStatus,
                                                 lines: seq<string>, j: nat)
    requires j <= |lines| && LineRows(datarate, owd, cid, status, lines[..j]).Err?
    ensures LineRows(datarate, owd, cid, status, lines) == LineRows(datarate, owd, cid, status, lines[..j])
    decreases |lines| - j
  {
    if j < |lines| {
      LineRowsPrefix(datarate, owd, cid, status, lines, j);
      LineRowsFailureSticks(datarate, owd, cid, status, lines, j + 1);
    } else {
      assert lines[..j] == lines;
    }
  }

  /** One client qlog joined with its server qlog.  A name the pattern does not
      match fails as `.group` on `None` does; anything but exactly one server
      file fails the assertion; a summary line whose goodput cannot be divided
      by the rate fails as the division does. */
  function EvalClient(logs: seq<LogFile>, client: LogFile, cr: bool): (r: Result<seq<Row>>)
    ensures r.Err? <==> (ParseClientName(client.name).None? ||
      (var (d, o, c) := ParseClientName(client.name).value;
       |ServerLogs(logs, d, o, c)| != 1 || !AllLinesOk(d, Lines(client.content))))
    ensures r.Err? ==> r.error in {AttributeError, AssertionError, ValueError, ZeroDivisionError}
    ensures r.Ok? ==> forall row | row in r.value :: row.status != ExcludedStatus(cr)
  {
    match ParseClientName(client.name)
    case None => Err(AttributeError)
    case Some((datarate, owd, cid)) =>
      var servers := ServerLogs(logs, datarate, owd, cid);
      if |servers| != 1 then Err(AssertionError)
      else LineRows(datarate, owd, cid, CrStatusOf(servers[0].content, cr), Lines(client.content))
  }

  /** The rows gathered from `files` (a prefix of the directory listing), in
      listing order, before sorting; the first failing client file fails all. */
  function EvalLogs(logs: seq<LogFile>, files: seq<LogFile>, cr: bool): (r: Result<seq<Row>>)
    ensures r.Ok? ==> forall row | row in r.value :: row.status != ExcludedStatus(cr)
  {
    if files == [] then Ok([])
    else
      var prev :- EvalLogs(logs, files[..|files| - 1], cr);
      var f := files[|files| - 1];
      if !IsClientQlog(f.name) then Ok(prev)
      else
        var more :- EvalClient(logs, f, cr);
        Ok(prev + more)
  }

  function RowKey(row: Row): Key { (row.datarate, row.owd) }

  /** What runEval writes to results.csv. A frame that received no rows has
      no columns to sort by, and sorting it raises KeyError; otherwise the rows
      are ordered by data rate and then one-way delay. */
  function EvalResult(logs: seq<LogFile>, cr: bool): (r: Result<seq<Row>>)
    ensures EvalLogs(logs, logs, cr) == Ok([]) ==> r == Err(KeyError)
    ensures EvalLogs(logs, logs, cr).Err? ==> r == Err(EvalLogs(logs, logs, cr).error)
    ensures EvalLogs(logs, logs, cr).Ok? && EvalLogs(logs, logs, cr).value != [] ==> r.Ok?
    ensures r.Ok? ==> EvalLogs(logs, logs, cr).Ok? && SortedBy(r.value, RowKey)
    ensures r.Ok? ==> multiset(r.value) == multiset(EvalLogs(logs, logs, cr).value)
  {
    var rows :- EvalLogs(logs, logs, cr);
    if rows == [] then Err(KeyError) else Ok(SortBy(rows, RowKey))
  }

  /** Sorting on two columns is stable in pandas: rows with the same data rate
      and one-way delay stay in the order they were gathered in. */
  lemma EvalResultKeepsTies(logs: seq<LogFile>, cr: bool, k: Key)
    requires EvalResult(logs, cr).Ok?
    ensures WithKey(EvalResult(logs, cr).value, RowKey, k) == WithKey(EvalLogs(logs, logs, cr).value, RowKey, k)
  {
    SortByStable(EvalLogs(logs, logs, cr).value, RowKey, k);
  }

  lemma {:induction false} EvalLogsFailureSticks(logs: seq<LogFile>, files: seq<LogFile>, i: nat, cr: bool)
    requires i <= |files| && EvalLogs(logs, files[..i], cr).Err?
    ensures EvalLogs(logs, files, cr) == EvalLogs(logs, files[..i], cr)
    decreases |files| - i
  {
    if i < |files| {
      assert files[..i + 1][..i] == files[..i];
      EvalLogsFailureSticks(logs, files, i + 1, cr);
    } else {
      assert files[..i] == files;
    }
  }

  /** The per-line loop of runEval over one client file. */
  method ScanLines(datarate: nat, owd: nat, cid: string, status: CrStatus, lines: seq<string>)
    returns (r: Result<seq<Row>>)
    ensures r == LineRows(datarate, owd, cid, status, lines)
  {
    var rows := [];
    var j := 0;
    while j < |lines|
      invariant 0 <= j <= |lines|
      invariant LineRows(datarate, owd, cid, status, lines[..j]) == Ok(rows)
    {
      LineRowsPrefix(datarate, owd, cid, status, lines, j);
      match SearchReceived(lines[j]) {
        case Some(m) =>
          var e := GoodputError(datarate, m.2);
          if e.Some? {
            LineRowsFailureSticks(datarate, owd, cid, status, lines, j + 1);
            return Err(e.value);
          }
          rows := rows + [Row(datarate, owd, 2 * owd, CalculateBdp(datarate, 2 * owd), m.0, cid, status, m.1, m.2)];
        case None =>
      }
      j := j + 1;
    }
    assert lines[..j] == lines;
    r := Ok(rows);
  }

  /** One client qlog of runEval: the name parse, the server lookup and the
      line loop. */
  method ScanClient(logs: seq<LogFile>, f: LogFile, cr: bool) returns (r: Result<seq<Row>>)
    ensures r == EvalClient(logs, f, cr)
  {
    var parsed := ParseClientName(f.name);
    if parsed.None? {
      return Err(AttributeError);
    }
    var (datarate, owd, cid) := parsed.value;
    var servers := ServerLogs(logs, datarate, owd, cid);
    if |servers| != 1 {
      return Err(AssertionError);
    }
    var status := CrStatusOf(servers[0].content, cr);
    r := ScanLines(datarate, owd, cid, status, Lines(f.content));
  }

  /** What one file of the listing adds: a client qlog its rows, any other
      file nothing. */
  function FileRows(logs: seq<LogFile>, f: LogFile, cr: bool): Result<seq<Row>>
  {
    if IsClientQlog(f.name) then EvalClient(logs, f, cr) else Ok([])
  }

  method ScanFile(logs: seq<LogFile>, f: LogFile, cr: bool) returns (r: Result<seq<Row>>)
    ensures r == FileRows(logs, f, cr)
  {
    r := Ok([]);
    if IsClientQlog(f.name) {
      r := ScanClient(logs, f, cr);
    }
  }

  lemma EvalLogsPrefix(logs: seq<LogFile>, files: seq<LogFile>, i: nat, cr: bool)
    requires i < |files| && EvalLogs(logs, files[..i], cr).Ok?
    ensures !IsClientQlog(files[i].name) ==> EvalLogs(logs, files[..i + 1], cr) == EvalLogs(logs, files[..i], cr)
    ensures IsClientQlog(files[i].name) && EvalClient(logs, files[i], cr).Err? ==>
      EvalLogs(logs, files[..i + 1], cr) == Err(EvalClient(logs, files[i], cr).error)
    ensures IsClientQlog(files[i].name) && EvalClient(logs, files[i], cr).Ok? ==>
      EvalLogs(logs, files[..i + 1], cr)
      == Ok(EvalLogs(logs, files[..i], cr).value + EvalClient(logs, files[i], cr).value)
  {
    assert files[..i + 1][..i] == files[..i];
    assert files[..i + 1][i] == files[i];
  }

  /** The loop of runEval: every client qlog in listing order, each line of it
      in order; the first failing client file ends it. */
  method GatherRows(logs: seq<LogFile>, cr: bool) returns (r: Result<seq<Row>>)
    ensures r == EvalLogs(logs, logs, cr)
  {
    var rows: seq<Row> := [];
    var i := 0;
    while i < |logs|
      invariant 0 <= i <= |logs|
      invariant EvalLogs(logs, logs[..i], cr) == Ok(rows)
    {
      var more := ScanFile(logs, logs[i], cr);
      GatherStep(logs, i, cr, rows, more);
      if more.Err? {
        return Err(more.error);
      }
      rows := rows + more.value;
      i := i + 1;
    }
    assert logs[..i] == logs;
    r := Ok(rows);
  }

  /** One turn of the loop of runEval, `more` being what file `i` adds. */
  lemma GatherStep(logs: seq<LogFile>, i: nat, cr: bool, rows: seq<Row>, more: Result<seq<Row>>)
    requires i < |logs| && EvalLogs(logs, logs[..i], cr) == Ok(rows)
    requires more == FileRows(logs, logs[i], cr)
    ensures more.Err? ==> EvalLogs(logs, logs, cr) == Err(more.error)
    ensures more.Ok? ==> EvalLogs(logs, logs[..i + 1], cr) == Ok(rows + more.value)
  {
    EvalLogsPrefix(logs, logs, i, cr);
    if more.Err? {
      EvalLogsFailureSticks(logs, logs, i + 1, cr);
    } else if !IsClientQlog(logs[i].name) {
      assert rows + more.value == rows;
    }
  }

  /** runEval: the gathered rows sorted by data rate and one-way delay. */
  method RunEval(logs: seq<LogFile>, cr: bool) returns (res: Result<seq<Row>>)
    ensures res == EvalResult(logs, cr)
    ensures res.Ok? ==> SortedBy(res.value, RowKey)
  {
    var rows := GatherRows(logs, cr);
    if rows.Err? {
      return Err(rows.error);
    }
    if rows.value == [] {
      return Err(KeyError);
    }
    res := Ok(SortBy(rows.value, RowKey));
  }

  // =====================================================================
  // The checks of runPlot

  /** `df.query("`Careful Resume` == 'enabled'")`: every enabled row and no other. */
  function EnabledRows(rows: seq<Row>): (r: seq<Row>)
    ensures forall row | row in r :: row in rows && row.status == Enabled
    ensures forall row | row in rows && row.status == Enabled :: row in r
  {
    if rows == [] then []
    else if rows[0].status == Enabled then [rows[0]] + EnabledRows(rows[1..])
    else EnabledRows(rows[1..])
  }

  /** The query keeps the order of the frame: filtering a frame filters its
      parts one after the other, and a single row is kept exactly when it is
      enabled. */
  lemma {:induction false} EnabledRowsConcat(a: seq<Row>, b: seq<Row>)
    ensures EnabledRows(a + b) == EnabledRows(a) + EnabledRows(b)
    ensures forall row :: EnabledRows([row]) == (if row.status == Enabled then [row] else [])
  {
    if a != [] {
      var ab := a + b;
      assert ab[0] == a[0] && ab[1..] == a[1..] + b;
      EnabledRowsConcat(a[1..], b);
    } else {
      assert a + b == b;
    }
    forall row ensures EnabledRows([row]) == (if row.status == Enabled then [row] else []) {
      assert [row][1..] == [];
    }
  }

  /** runPlot before plotting: with the flag set no row may be `disabled` and
      only `enabled` rows are kept (safe-retreat rows are discarded); without it
      no row may be `enabled`. */
  function PlotCheck(rows: seq<Row>, cr: bool): (r: Result<seq<Row>>)
    ensures r.Ok? <==> forall row | row in rows :: row.status != ExcludedStatus(cr)
    ensures r.Ok? && cr ==> forall row | row in r.value :: row.status == Enabled
    ensures r.Ok? && cr ==> forall row | row in rows && row.status != SafeRetreat :: row in r.value
    ensures r.Ok? && cr ==> r.value == EnabledRows(rows)
    ensures r.Ok? && !cr ==> r.value == rows
  {
    if exists row | row in rows :: row.status == ExcludedStatus(cr) then Err(AssertionError)
    else if cr then Ok(EnabledRows(rows))
    else Ok(rows)
  }

  /** Whatever runEval produces with a flag passes runPlot's checks with the same flag. */
  lemma EvalPassesPlot(logs: seq<LogFile>, cr: bool)
    requires EvalResult(logs, cr).Ok?
    ensures PlotCheck(EvalResult(logs, cr).value, cr).Ok?
  {
    var rows := EvalLogs(logs, logs, cr).value;
    var sorted := SortBy(rows, RowKey);
    forall row | row in sorted ensures row.status != ExcludedStatus(cr) {
      assert row in multiset(sorted);
    }
  }
}
