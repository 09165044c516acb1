/** How the transmission-duration runner and its evaluator fit together:
    the artifacts the runner stores under a trial's name are the files the
    evaluator reads back, with the server, the congestion control and the
    size string the trial was run with; and the two scripts read the same
    size string as different numbers of bytes. */
module VostdAgreement {
  import opened Outcomes
  import opened Strings
  import opened VostdEval
  import opened VostdRun

  /** A test-case field the evaluator can split back out of a file name. */
  predicate PlainField(s: string) { '_' !in s && '.' !in s && '/' !in s }

  /** A trial's `.qlog` or `.sqlog` artifact, as `get_qlog` stores it, is
      dispatched by the evaluator on its extension, and `process_file_name`
      recovers the trial's server as provider, its congestion control as
      algorithm and its size string. */
  lemma TrialArtifactParses(dir: string, testcase: Testcase, size: string, itr: nat, vmName: string, kind: string)
    requires PlainField(testcase.server) && PlainField(testcase.client) && PlainField(testcase.cc)
    requires '.' !in size && '/' !in size
    requires kind == "qlog" || kind == "sqlog"
    ensures var path := LocalPath(dir, TrialName(testcase, size, itr), RoleName(vmName) + "." + kind);
      && ProcessFileName(path) == Ok(NameFields(testcase.server, size, testcase.cc))
      && Extension(path) == "." + kind
  {
    TrialArtifactFields(dir, testcase, size, itr, RoleName(vmName), kind);
    TrialArtifactExtension(dir, testcase, size, itr, RoleName(vmName), kind);
  }

  lemma TrialArtifactFields(dir: string, testcase: Testcase, size: string, itr: nat, role: string, kind: string)
    requires PlainField(testcase.server) && PlainField(testcase.client) && PlainField(testcase.cc)
    requires '.' !in size && '/' !in size && '/' !in role && '/' !in kind
    ensures ProcessFileName(LocalPath(dir, TrialName(testcase, size, itr), role + "." + kind))
         == Ok(NameFields(testcase.server, size, testcase.cc))
  {
    var digits := NatToString(itr);
    var fields := [testcase.server, testcase.client, testcase.cc];
    var tail := ".itr" + digits + "." + (role + "." + kind);
    DigitsExclude(digits, '/');
    assert '/' !in tail;
    assert tail[0] == '.';
    TrialNameFields(testcase, size, itr, role + "." + kind);
    assert forall k | 0 <= k < |fields| :: '_' !in fields[k] && '.' !in fields[k] && '/' !in fields[k] by {
      assert forall k | 0 <= k < |fields| :: PlainField(fields[k]);
    }
    ProcessFileNameOfTemplate(dir, fields, size, tail);
  }

  lemma TrialArtifactExtension(dir: string, testcase: Testcase, size: string, itr: nat, role: string, kind: string)
    requires '/' !in testcase.server && '/' !in testcase.client && '/' !in testcase.cc
    requires '/' !in size && '/' !in role && '/' !in kind && '.' !in kind
    ensures Extension(LocalPath(dir, TrialName(testcase, size, itr), role + "." + kind)) == "." + kind
  {
    var trial := TrialName(testcase, size, itr);
    TrialStem(testcase, size, itr, role);
    ExtensionOfName(dir, trial + "." + role, kind);
    assert dir + "/" + (trial + "." + (role + "." + kind)) == dir + "/" + (trial + "." + role) + "." + kind;
  }

  /** The stored name is the template `f0_f1_f2.size<tail>` the evaluator parses. */
  lemma TrialNameFields(testcase: Testcase, size: string, itr: nat, extension: string)
    ensures TrialName(testcase, size, itr) + "." + extension
         == Join([testcase.server, testcase.client, testcase.cc], '_') + "." + size
            + (".itr" + NatToString(itr) + "." + extension)
  {
    var fields := [testcase.server, testcase.client, testcase.cc];
    assert Join(fields[1..][1..], '_') == testcase.cc by { assert fields[1..][1..] == [testcase.cc]; }
    assert Join(fields[1..], '_') == testcase.client + "_" + testcase.cc;
    assert Join(fields, '_') == testcase.server + "_" + (testcase.client + "_" + testcase.cc);
    Regroup5(testcase.server, testcase.client, testcase.cc, size, NatToString(itr), extension);
  }

  lemma Regroup5(a: string, b: string, c: string, size: string, digits: string, extension: string)
    ensures a + "_" + b + "_" + c + "." + size + ".itr" + digits + "." + extension
         == a + "_" + (b + "_" + c) + "." + size + (".itr" + digits + "." + extension)
  {
  }

  /** The part before the extension holds no '/' and is not all dots. */
  lemma TrialStem(testcase: Testcase, size: string, itr: nat, role: string)
    requires '/' !in testcase.server && '/' !in testcase.client && '/' !in testcase.cc
    requires '/' !in size && '/' !in role
    ensures '/' !in TrialName(testcase, size, itr) + "." + role
    ensures !AllDots(TrialName(testcase, size, itr) + "." + role)
  {
    var stem := TrialName(testcase, size, itr) + "." + role;
    DigitsExclude(NatToString(itr), '/');
    assert stem[|testcase.server|] == '_';
  }

  /** For `N` with a unit, the runner counts binary multiples and the
      evaluator decimal ones: `NKB` is N·1024 bytes to one and N·1000 to the
      other, and likewise for MB and GB; they differ whenever N > 0. */
  lemma SizeUnitsDisagree(n: nat, unit: string)
    requires unit in {"KB", "MB", "GB"}
    ensures var s := NatToString(n) + unit;
      && ConvertSizeToBytes(s).Ok? && SizeToBytes(s).Ok?
      && (unit == "KB" ==> ConvertSizeToBytes(s).value == n * 1024 && SizeToBytes(s).value == n * 1000)
      && (n > 0 <==> ConvertSizeToBytes(s).value != SizeToBytes(s).value)
  {
    ConvertOfUnit(n, unit);
    SizeToBytesOfUnit(n, unit);
  }
}
