/** The transmission-duration runner's deterministic helpers: object-size
    strings, the server port a test case uses, the first-match file lookup,
    the local names downloaded artifacts get, the stale-file `find`
    expression, the reading of `who -q` output and the trial schedule with
    its run counter and trial names.  SSH, SFTP and the remote commands
    themselves are outside the model: what they return arrives as
    parameters. */
module VostdRun {
  import opened Outcomes
  import opened Strings

  // ---------------------------------------------------------------------
  // Object sizes

  /** The object sizes a run uses unless told otherwise. */
  const FileSizeList: seq<string> := ["0KB", "500KB", "1000KB", "1500KB", "2000KB", "2500KB", "3000KB",
    "3500KB", "4000KB", "4500KB", "5000KB", "5500KB", "6000KB", "6500KB", "7000KB", "7500KB", "8000KB",
    "8500KB", "9000KB", "9500KB", "10000KB"]

  /** The number of iterations the trial loop runs. */
  const NumItr: nat := 1

  /** `convert_size_to_bytes`: the first of KB, MB and GB that occurs anywhere
      in the string picks the binary factor 1024, 1024² or 1024³, applied to
      `int` of the string with every occurrence of that unit removed. */
  function ConvertSizeToBytes(size: string): (r: Result<int>)
    ensures !Contains(size, "KB") && !Contains(size, "MB") && !Contains(size, "GB") ==> r == Err(ValueError)
    ensures r.Err? ==> r.error == ValueError
  {
    if Contains(size, "KB") then
      var n :- PyInt(Remove(size, "KB"));
      Ok(n * 1024)
    else if Contains(size, "MB") then
      var n :- PyInt(Remove(size, "MB"));
      Ok(n * 1024 * 1024)
    else if Contains(size, "GB") then
      var n :- PyInt(Remove(size, "GB"));
      Ok(n * 1024 * 1024 * 1024)
    else
      Err(ValueError)
  }

  /** `N` followed by KB, MB or GB is N·1024, N·1024² or N·1024³ bytes. */
  lemma ConvertOfUnit(n: nat, unit: string)
    requires unit in {"KB", "MB", "GB"}
    ensures ConvertSizeToBytes(NatToString(n) + unit)
         == Ok(if unit == "KB" then n * 1024 else if unit == "MB" then n * 1024 * 1024 else n * 1024 * 1024 * 1024)
  {
    var digits := NatToString(n);
    var s := digits + unit;
    UnitOfNumber(n, unit);
    if unit == "KB" {
      assert ConvertSizeToBytes(s) == Ok(n * 1024);
    } else {
      LetterAbsent(digits, unit, 'K');
      if unit == "MB" {
        assert ConvertSizeToBytes(s) == Ok(n * 1024 * 1024);
      } else {
        LetterAbsent(digits, unit, 'M');
        assert ConvertSizeToBytes(s) == Ok(n * 1024 * 1024 * 1024);
      }
    }
  }

  /** In `str(n) + unit` the unit occurs, and removing it leaves a number
      that reads back as `n`. */
  lemma UnitOfNumber(n: nat, unit: string)
    requires |unit| > 0 && !IsDigit(unit[0])
    ensures Contains(NatToString(n) + unit, unit)
    ensures PyInt(Remove(NatToString(n) + unit, unit)) == Ok(n)
  {
    var digits := NatToString(n);
    ContainsSuffix(digits, unit);
    DigitsExclude(digits, unit[0]);
    RemoveTrailing(digits, unit);
    NatToStringValue(n);
  }

  /** A unit whose first letter appears neither in the number nor in the
      unit written after it does not occur. */
  lemma LetterAbsent(digits: string, unit: string, letter: char)
    requires AllDigits(digits) && !IsDigit(letter) && letter !in unit
    ensures !Contains(digits + unit, [letter, 'B'])
  {
    DigitsExclude(digits, letter);
    assert letter !in digits + unit;
    if Contains(digits + unit, [letter, 'B']) {
      ContainsHead(digits + unit, [letter, 'B']);
    }
  }

  // ---------------------------------------------------------------------
  // Server ports

  /** The endpoint configuration: per endpoint name, its settings. */
  type Endpoints = map<string, map<string, int>>

  /** `endpoints["server"][key]`. */
  function ServerSetting(endpoints: Endpoints, key: string): (r: Result<int>)
    ensures r.Ok? <==> "server" in endpoints && key in endpoints["server"]
    ensures r.Ok? ==> r.value == endpoints["server"][key]
    ensures r.Err? ==> r.error == KeyError
  {
    if "server" !in endpoints then Err(KeyError)
    else if key !in endpoints["server"] then Err(KeyError)
    else Ok(endpoints["server"][key])
  }

  /** `determine_server_port`: the configured port of the first of picoquic,
      quiche and http2 that the server name mentions; a name mentioning none
      of them is rejected. */
  function DetermineServerPort(server: string, endpoints: Endpoints): (r: Result<int>)
    ensures Contains(server, "picoquic") ==> r == ServerSetting(endpoints, "picoquic_port")
    ensures !Contains(server, "picoquic") && Contains(server, "quiche")
        ==> r == ServerSetting(endpoints, "quiche_port")
    ensures !Contains(server, "picoquic") && !Contains(server, "quiche") && Contains(server, "http2")
        ==> r == ServerSetting(endpoints, "http2_port")
    ensures r == Err(ServerNameError)
        <==> !Contains(server, "picoquic") && !Contains(server, "quiche") && !Contains(server, "http2")
  {
    if Contains(server, "picoquic") then ServerSetting(endpoints, "picoquic_port")
    else if Contains(server, "quiche") then ServerSetting(endpoints, "quiche_port")
    else if Contains(server, "http2") then ServerSetting(endpoints, "http2_port")
    else Err(ServerNameError)
  }

  // ---------------------------------------------------------------------
  // find_file

  /** The name test of `find_file`: an empty prefix accepts every name. */
  predicate Wanted(name: string, prefix: string, suffix: string)
  {
    (prefix == [] || StartsWith(name, prefix)) && EndsWith(name, suffix)
  }

  /** `names[i]` is wanted and no name before it is. */
  predicate FirstWantedAt(names: seq<string>, i: int, prefix: string, suffix: string)
  {
    0 <= i < |names| && Wanted(names[i], prefix, suffix)
    && forall j | 0 <= j < i :: !Wanted(names[j], prefix, suffix)
  }

  /** `find_file` over a directory listing: the first wanted name, if any. */
  method FindFile(listing: seq<string>, prefix: string, suffix: string) returns (r: Option<string>)
    ensures r.None? <==> forall i | 0 <= i < |listing| :: !Wanted(listing[i], prefix, suffix)
    ensures r.Some? ==> exists i :: FirstWantedAt(listing, i, prefix, suffix) && listing[i] == r.value
  {
    var i := 0;
    while i < |listing|
      invariant 0 <= i <= |listing|
      invariant forall j | 0 <= j < i :: !Wanted(listing[j], prefix, suffix)
    {
      var name := listing[i];
      if (prefix == [] || StartsWith(name, prefix)) && EndsWith(name, suffix) {
        assert FirstWantedAt(listing, i, prefix, suffix);
        return Some(name);
      }
      i := i + 1;
    }
    return None;
  }

  // ---------------------------------------------------------------------
  // Downloaded artifacts (get_qlog)

  /** The role a machine's files are renamed with: `server` for the machine
      named "server", `client` otherwise. */
  function RoleName(vmName: string): (r: string)
    ensures r in {"server", "client"}
    ensures r == "server" <==> vmName == "server"
  {
    if vmName == "server" then "server" else "client"
  }

  /** The artifact kind a remote file is copied as, by its suffix, tested in
      the order .txt, .sqlog, .qlog, .key, .csv; `None` for any other suffix. */
  function ArtifactKind(fileName: string): (r: Option<string>)
    ensures r.Some? ==> r.value in {"log", "sqlog", "qlog", "key", "csv"}
    ensures r.None?
        <==> (!EndsWith(fileName, ".txt") && !EndsWith(fileName, ".sqlog") && !EndsWith(fileName, ".qlog")
              && !EndsWith(fileName, ".key") && !EndsWith(fileName, ".csv"))
  {
    if EndsWith(fileName, ".txt") then Some("log")
    else if EndsWith(fileName, ".sqlog") then Some("sqlog")
    else if EndsWith(fileName, ".qlog") then Some("qlog")
    else if EndsWith(fileName, ".key") then Some("key")
    else if EndsWith(fileName, ".csv") then Some("csv")
    else None
  }

  /** A `name.<ext>` file of each listed suffix is copied as its own kind,
      except that a `.txt` file becomes a `log`. */
  lemma ArtifactKindOfSuffix(stem: string, ext: string)
    requires ext == "txt" || ext == "sqlog" || ext == "qlog" || ext == "key" || ext == "csv"
    ensures ArtifactKind(stem + "." + ext) == Some(if ext == "txt" then "log" else ext)
  {
    match ext
    case "txt" => TxtArtifact(stem);
    case "sqlog" => SqlogArtifact(stem);
    case "qlog" => QlogArtifact(stem);
    case "key" => KeyArtifact(stem);
    case "csv" => CsvArtifact(stem);
  }

  lemma TxtArtifact(stem: string)
    ensures ArtifactKind(stem + "." + "txt") == Some("log")
  {
    var name, dotted := stem + "." + "txt", "." + "txt";
    assert EndsWith(name, dotted) by {
      assert name[|name| - |dotted|..] == dotted;
    }
    SuffixChar(name, dotted, 0);
  }

  lemma SqlogArtifact(stem: string)
    ensures ArtifactKind(stem + "." + "sqlog") == Some("sqlog")
  {
    var name, dotted := stem + "." + "sqlog", "." + "sqlog";
    assert EndsWith(name, dotted) by {
      assert name[|name| - |dotted|..] == dotted;
    }
    SuffixChar(name, dotted, 0);
    SuffixChar(name, ".txt", 0);
  }

  lemma QlogArtifact(stem: string)
    ensures ArtifactKind(stem + "." + "qlog") == Some("qlog")
  {
    var name, dotted := stem + "." + "qlog", "." + "qlog";
    assert EndsWith(name, dotted) by {
      assert name[|name| - |dotted|..] == dotted;
    }
    assert name[|name| - 1] == 'g' && name[|name| - 5] == '.';
    assert !EndsWith(name, ".txt") by {
      SuffixChar(name, ".txt", 0);
    }
    assert !EndsWith(name, ".sqlog") by {
      SuffixChar(name, ".sqlog", 4);
    }
  }

  lemma KeyArtifact(stem: string)
    ensures ArtifactKind(stem + "." + "key") == Some("key")
  {
    var name, dotted := stem + "." + "key", "." + "key";
    assert EndsWith(name, dotted) by {
      assert name[|name| - |dotted|..] == dotted;
    }
    SuffixChar(name, dotted, 0);
    SuffixChar(name, ".txt", 0);
    SuffixChar(name, ".sqlog", 0);
    SuffixChar(name, ".qlog", 0);
  }

  lemma CsvArtifact(stem: string)
    ensures ArtifactKind(stem + "." + "csv") == Some("csv")
  {
    var name, dotted := stem + "." + "csv", "." + "csv";
    assert EndsWith(name, dotted) by {
      assert name[|name| - |dotted|..] == dotted;
    }
    SuffixChar(name, dotted, 0);
    SuffixChar(name, ".txt", 0);
    SuffixChar(name, ".sqlog", 0);
    SuffixChar(name, ".qlog", 0);
    SuffixChar(name, ".key", 0);
  }

  /** `os.path.join(directory, name)` for a directory not ending in '/'. */
  function PathJoin(directory: string, name: string): (p: string)
    ensures EndsWith(p, name)
  {
    var p := directory + "/" + name;
    assert p[|p| - |name|..] == name;
    p
  }

  /** The local file an artifact is stored as: `{new_name}.{extension}` in
      the destination directory, where `extension` is `{role}.{kind}`. */
  function LocalPath(dstDirectory: string, newName: string, extension: string): string
  {
    PathJoin(dstDirectory, newName + "." + extension)
  }

  /** One `sftp.get`: remote path, local path. */
  datatype Copy = Copy(remote: string, local: string)

  /** The outcome of the copy loop over one machine's listing: the copies
      made, the value `extension` is left bound to, and whether the loop
      stopped on an unbound `extension` (the exception handler then ends
      that machine's copying). */
  datatype CopyRun = CopyRun(copies: seq<Copy>, extension: Option<string>, failed: bool)

  /** The copy loop over `files`, entered with `extension` bound as given:
      a file with a known suffix rebinds it; a file with an unknown suffix
      reuses whatever it is bound to, and raises if it is unbound. */
  function CopyFiles(vmName: string, remoteDirectory: string, files: seq<string>,
                     dstDirectory: string, newName: string, extension: Option<string>): (r: CopyRun)
    ensures |r.copies| <= |files|
    ensures !r.failed ==> |r.copies| == |files|
    ensures r.failed ==> r.extension.None?
  {
    if files == [] then CopyRun([], extension, false)
    else
      var prev := CopyFiles(vmName, remoteDirectory, files[..|files| - 1], dstDirectory, newName, extension);
      if prev.failed then prev
      else
        var file := files[|files| - 1];
        var ext := match ArtifactKind(file)
          case Some(kind) => Some(RoleName(vmName) + "." + kind)
          case None => prev.extension;
        if ext.None? then CopyRun(prev.copies, None, true)
        else CopyRun(prev.copies + [Copy(PathJoin(remoteDirectory, file), LocalPath(dstDirectory, newName, ext.value))], ext, false)
  }

  /** When every file has a known suffix, each is copied, in listing order,
      to `{new_name}.{role}.{kind}`, whatever `extension` was bound to before. */
  lemma {:induction false} CopyFilesKnown(vmName: string, remoteDirectory: string, files: seq<string>,
                                          dstDirectory: string, newName: string, extension: Option<string>)
    requires forall i | 0 <= i < |files| :: ArtifactKind(files[i]).Some?
    ensures var run := CopyFiles(vmName, remoteDirectory, files, dstDirectory, newName, extension);
      && !run.failed
      && |run.copies| == |files|
      && forall i | 0 <= i < |files| :: run.copies[i]
           == Copy(PathJoin(remoteDirectory, files[i]),
                   LocalPath(dstDirectory, newName, RoleName(vmName) + "." + ArtifactKind(files[i]).value))
  {
    if files != [] {
      var init := files[..|files| - 1];
      CopyFilesKnown(vmName, remoteDirectory, init, dstDirectory, newName, extension);
      var prev := CopyFiles(vmName, remoteDirectory, init, dstDirectory, newName, extension);
      var run := CopyFiles(vmName, remoteDirectory, files, dstDirectory, newName, extension);
      CopyFilesKnownLast(vmName, remoteDirectory, files, dstDirectory, newName, extension);
      forall i | 0 <= i < |files|
        ensures run.copies[i] == Copy(PathJoin(remoteDirectory, files[i]),
                   LocalPath(dstDirectory, newName, RoleName(vmName) + "." + ArtifactKind(files[i]).value))
      {
        if i < |files| - 1 {
          assert init[i] == files[i];
          assert run.copies[i] == prev.copies[i];
        }
      }
    }
  }

  /** One more file with a known suffix, after a run that did not fail, adds
      its own copy and rebinds `extension`. */
  lemma CopyFilesKnownLast(vmName: string, remoteDirectory: string, files: seq<string>,
                           dstDirectory: string, newName: string, extension: Option<string>)
    requires files != [] && ArtifactKind(files[|files| - 1]).Some?
    requires !CopyFiles(vmName, remoteDirectory, files[..|files| - 1], dstDirectory, newName, extension).failed
    ensures var file := files[|files| - 1];
      var prev := CopyFiles(vmName, remoteDirectory, files[..|files| - 1], dstDirectory, newName, extension);
      var ext := RoleName(vmName) + "." + ArtifactKind(file).value;
      CopyFiles(vmName, remoteDirectory, files, dstDirectory, newName, extension)
        == CopyRun(prev.copies + [Copy(PathJoin(remoteDirectory, file), LocalPath(dstDirectory, newName, ext))], Some(ext), false)
  {
  }

  /** A file with an unknown suffix is copied to the same local path as the
      file before it: the stale `extension` is reused. */
  lemma StaleExtension(vmName: string, remoteDirectory: string, files: seq<string>,
                       dstDirectory: string, newName: string, extension: Option<string>)
    requires |files| >= 2 && ArtifactKind(files[|files| - 1]).None?
    requires !CopyFiles(vmName, remoteDirectory, files[..|files| - 1], dstDirectory, newName, extension).failed
    ensures var run := CopyFiles(vmName, remoteDirectory, files, dstDirectory, newName, extension);
      && !run.failed && |run.copies| == |files|
      && run.copies[|files| - 1].local == run.copies[|files| - 2].local
  {
    var init := files[..|files| - 1];
    var prev := CopyFiles(vmName, remoteDirectory, init, dstDirectory, newName, extension);
    var before := CopyFiles(vmName, remoteDirectory, init[..|init| - 1], dstDirectory, newName, extension);
    assert !before.failed;
  }

  /** A machine whose first file has an unknown suffix, entered with
      `extension` unbound, copies nothing. */
  lemma UnboundExtension(vmName: string, remoteDirectory: string, files: seq<string>,
                         dstDirectory: string, newName: string)
    requires |files| > 0 && ArtifactKind(files[0]).None?
    ensures var run := CopyFiles(vmName, remoteDirectory, files, dstDirectory, newName, None);
      run.failed && run.copies == []
  {
    FailedStays(vmName, remoteDirectory, files, 1, dstDirectory, newName, None);
    assert files[..1][..0] == [];
  }

  /** Once the loop has raised, the later files change nothing. */
  lemma {:induction false} FailedStays(vmName: string, remoteDirectory: string, files: seq<string>, k: nat,
                                       dstDirectory: string, newName: string, extension: Option<string>)
    requires k <= |files|
    requires CopyFiles(vmName, remoteDirectory, files[..k], dstDirectory, newName, extension).failed
    ensures CopyFiles(vmName, remoteDirectory, files, dstDirectory, newName, extension)
         == CopyFiles(vmName, remoteDirectory, files[..k], dstDirectory, newName, extension)
    decreases |files| - k
  {
    if k < |files| {
      var init := files[..|files| - 1];
      assert init[..k] == files[..k];
      FailedStays(vmName, remoteDirectory, init, k, dstDirectory, newName, extension);
    } else {
      assert files[..k] == files;
    }
  }

  /** The copy loop of `get_qlog` on one machine. */
  method CopyArtifacts(vmName: string, remoteDirectory: string, files: seq<string>,
                       dstDirectory: string, newName: string, extension0: Option<string>)
    returns (copies: seq<Copy>, extension: Option<string>, failed: bool)
    ensures CopyRun(copies, extension, failed)
         == CopyFiles(vmName, remoteDirectory, files, dstDirectory, newName, extension0)
  {
    copies, extension := [], extension0;
    var i := 0;
    while i < |files|
      invariant 0 <= i <= |files|
      invariant CopyFiles(vmName, remoteDirectory, files[..i], dstDirectory, newName, extension0)
             == CopyRun(copies, extension, false)
    {
      var file := files[i];
      assert files[..i + 1][..i] == files[..i];
      var kind := ArtifactKind(file);
      if kind.Some? {
        extension := Some(RoleName(vmName) + "." + kind.value);
      }
      if extension.None? {
        FailedStays(vmName, remoteDirectory, files, i + 1, dstDirectory, newName, extension0);
        return copies, extension, true;
      }
      copies := copies + [Copy(PathJoin(remoteDirectory, file), LocalPath(dstDirectory, newName, extension.value))];
      i := i + 1;
    }
    assert files[..i] == files;
    failed := false;
  }

  /** What `get_qlog` sees of one connection: the machine's name, its remote
      directory and the directory's listing. */
  datatype Listing = Listing(vmName: string, remoteDirectory: string, files: seq<string>)

  predicate IsEndpoint(vmName: string) { vmName == "server" || vmName == "client" }

  /** The copies `get_qlog` makes over the connections in order, and the value
      `extension` is left with: only the server and the client are visited,
      and `extension` carries over from one machine's loop to the next. */
  function FetchAll(listings: seq<Listing>, dstDirectory: string, newName: string): (r: (seq<Copy>, Option<string>))
    ensures |r.0| <= |Files(listings)|
  {
    if listings == [] then ([], None)
    else
      var init := listings[..|listings| - 1];
      var listing := listings[|listings| - 1];
      var (copies, extension) := FetchAll(init, dstDirectory, newName);
      assert Files(listings) == Files(init) + listing.files;
      if !IsEndpoint(listing.vmName) then (copies, extension)
      else
        var run := CopyFiles(listing.vmName, listing.remoteDirectory, listing.files, dstDirectory, newName, extension);
        (copies + run.copies, run.extension)
  }

  /** Every file listed on any connection. */
  function Files(listings: seq<Listing>): seq<string>
  {
    if listings == [] then [] else Files(listings[..|listings| - 1]) + listings[|listings| - 1].files
  }

  /** The server's and then the client's artifacts, all with known suffixes,
      are copied one for one to `{new_name}.server.{kind}` and
      `{new_name}.client.{kind}`. */
  lemma FetchServerThenClient(server: Listing, client: Listing, dstDirectory: string, newName: string)
    requires server.vmName == "server" && client.vmName == "client"
    requires forall i | 0 <= i < |server.files| :: ArtifactKind(server.files[i]).Some?
    requires forall i | 0 <= i < |client.files| :: ArtifactKind(client.files[i]).Some?
    ensures var copies := FetchAll([server, client], dstDirectory, newName).0;
      && |copies| == |server.files| + |client.files|
      && (forall i | 0 <= i < |server.files| :: copies[i]
            == Copy(PathJoin(server.remoteDirectory, server.files[i]),
                    LocalPath(dstDirectory, newName, "server" + "." + ArtifactKind(server.files[i]).value)))
      && (forall i | 0 <= i < |client.files| :: copies[|server.files| + i]
            == Copy(PathJoin(client.remoteDirectory, client.files[i]),
                    LocalPath(dstDirectory, newName, "client" + "." + ArtifactKind(client.files[i]).value)))
  {
    var first := CopyFiles("server", server.remoteDirectory, server.files, dstDirectory, newName, None);
    var second := CopyFiles("client", client.remoteDirectory, client.files, dstDirectory, newName, first.extension);
    FetchTwo(server, client, dstDirectory, newName);
    CopyFilesKnown("server", server.remoteDirectory, server.files, dstDirectory, newName, None);
    CopyFilesKnown("client", client.remoteDirectory, client.files, dstDirectory, newName, first.extension);
    var copies := first.copies + second.copies;
    assert forall i | 0 <= i < |client.files| :: copies[|server.files| + i] == second.copies[i];
  }

  /** Visiting the server and then the client chains their copy loops. */
  lemma FetchTwo(server: Listing, client: Listing, dstDirectory: string, newName: string)
    requires server.vmName == "server" && client.vmName == "client"
    ensures var first := CopyFiles("server", server.remoteDirectory, server.files, dstDirectory, newName, None);
      var second := CopyFiles("client", client.remoteDirectory, client.files, dstDirectory, newName, first.extension);
      FetchAll([server, client], dstDirectory, newName) == (first.copies + second.copies, second.extension)
  {
    var first := CopyFiles("server", server.remoteDirectory, server.files, dstDirectory, newName, None);
    assert [server, client][..1] == [server];
    assert [server][..0] == [];
    assert FetchAll([], dstDirectory, newName) == ([], None);
    assert [] + first.copies == first.copies;
    assert FetchAll([server], dstDirectory, newName) == (first.copies, first.extension);
  }

  /** The copy loop of `get_qlog` over all connections. */
  method GetQlog(listings: seq<Listing>, dstDirectory: string, newName: string) returns (copies: seq<Copy>)
    ensures copies == FetchAll(listings, dstDirectory, newName).0
  {
    copies := [];
    var extension: Option<string> := None;
    var i := 0;
    while i < |listings|
      invariant 0 <= i <= |listings|
      invariant FetchAll(listings[..i], dstDirectory, newName) == (copies, extension)
    {
      var listing := listings[i];
      assert listings[..i + 1][..i] == listings[..i];
      if listing.vmName == "server" || listing.vmName == "client" {
        var more, failed;
        more, extension, failed := CopyArtifacts(listing.vmName, listing.remoteDirectory, listing.files,
                                                 dstDirectory, newName, extension);
        copies := copies + more;
      }
      i := i + 1;
    }
    assert listings[..i] == listings;
  }

  // ---------------------------------------------------------------------
  // The stale-file `find` command (delete_qlog)

  /** The extensions whose files are removed before a trial. */
  const FileExtensions: seq<string> := ["qlog", "sqlog", "log", "txt", "key", "csv"]

  /** The remote directory trial artifacts are written to. */
  const QlogPathInVm: string := "$HOME/testcases/qlog"

  /** `-name '*.{ext}'`. */
  function NameClause(ext: string): string
  {
    "-name '*." + ext + "'"
  }

  function NameClauses(exts: seq<string>): (cs: seq<string>)
    ensures |cs| == |exts| && forall i | 0 <= i < |exts| :: cs[i] == NameClause(exts[i])
  {
    seq(|exts|, i requires 0 <= i < |exts| => NameClause(exts[i]))
  }

  /** The name clauses of the extensions joined by ` -o `. */
  function ExtensionsPattern(exts: seq<string>): string
  {
    JoinWith(NameClauses(exts), " -o ")
  }

  /** The command run on both machines before each trial. */
  function DeleteCommand(): string
  {
    "find " + QlogPathInVm + " -type f \\( " + ExtensionsPattern(FileExtensions) + " \\) -delete"
  }

  /** The pieces a quote-free lead followed by the pattern falls into at its
      quotes: the lead with `-name `, then per extension `*.<ext>` and the
      text up to the next clause's quote. */
  function QuotedPieces(lead: string, exts: seq<string>): (pieces: seq<string>)
    requires |exts| > 0
    ensures |pieces| == 2 * |exts| + 1
    ensures pieces[0] == lead + "-name " && pieces[2 * |exts|] == ""
    ensures forall i | 0 <= i < |exts| :: pieces[2 * i + 1] == "*." + exts[i] && (i > 0 ==> pieces[2 * i] == " -o -name ")
    decreases |exts|
  {
    var later := if |exts| == 1 then [""] else QuotedPieces(" -o ", exts[1..]);
    var pieces := [lead + "-name ", "*." + exts[0]] + later;
    assert forall j | 2 <= j < |pieces| :: pieces[j] == later[j - 2];
    pieces
  }

  /** Read back at its quotes, the pattern is one `-name '*.<ext>'` clause
      per extension, in order, joined by ` -o `. */
  lemma {:induction false} PatternPieces(lead: string, exts: seq<string>)
    requires |exts| > 0 && '\'' !in lead
    requires forall k | 0 <= k < |exts| :: '\'' !in exts[k]
    ensures Split(lead + ExtensionsPattern(exts), '\'') == QuotedPieces(lead, exts)
    decreases |exts|
  {
    PatternStep(lead, exts);
    if |exts| > 1 {
      PatternPieces(" -o ", exts[1..]);
    }
  }

  /** The first clause of the pattern splits off as two pieces. */
  lemma PatternStep(lead: string, exts: seq<string>)
    requires |exts| > 0 && '\'' !in lead && '\'' !in exts[0]
    ensures Split(lead + ExtensionsPattern(exts), '\'')
         == [lead + "-name ", "*." + exts[0]]
            + (if |exts| == 1 then [""] else Split(" -o " + ExtensionsPattern(exts[1..]), '\''))
  {
    var star := "*." + exts[0];
    var tail := if |exts| == 1 then [] else " -o " + ExtensionsPattern(exts[1..]);
    assert lead + ExtensionsPattern(exts) == (lead + "-name ") + ['\''] + (star + ['\''] + tail) by {
      PatternHead(exts);
      ClauseParts(exts[0]);
      Regroup(lead, "-name ", ['\''], star, tail);
    }
    assert '\'' !in star;
    SplitTwoQuoted(lead + "-name ", star, tail, '\'');
  }

  /** Two quotes split off the text before them and the text between them. */
  lemma SplitTwoQuoted(a: string, star: string, tail: string, q: char)
    requires q !in a && q !in star
    ensures Split(a + [q] + (star + [q] + tail), q) == [a, star] + Split(tail, q)
  {
    SplitAtFirst(a, q, star + [q] + tail);
    SplitAtFirst(star, q, tail);
  }

  lemma PatternHead(exts: seq<string>)
    requires |exts| > 0
    ensures ExtensionsPattern(exts)
         == NameClause(exts[0]) + (if |exts| == 1 then [] else " -o " + ExtensionsPattern(exts[1..]))
  {
    if |exts| > 1 {
      assert NameClauses(exts)[1..] == NameClauses(exts[1..]);
    }
  }

  lemma ClauseParts(ext: string)
    ensures NameClause(ext) == "-name " + ['\''] + ("*." + ext) + ['\'']
  {
    assert "-name '*." == "-name " + "'" + "*.";
  }

  lemma Regroup(lead: string, name: string, quote: string, star: string, tail: string)
    ensures lead + ((name + quote + star + quote) + tail) == (lead + name) + quote + (star + quote + tail)
  {
  }

  /** The `find` expression names each of the six extensions once, in order. */
  lemma DeletePatternClauses()
    ensures var pieces := Split(ExtensionsPattern(FileExtensions), '\'');
      && |pieces| == 13
      && forall i | 0 <= i < 6 :: pieces[2 * i + 1] == "*." + FileExtensions[i]
  {
    assert forall k | 0 <= k < |FileExtensions| :: '\'' !in FileExtensions[k];
    PatternPieces("", FileExtensions);
    assert "" + ExtensionsPattern(FileExtensions) == ExtensionsPattern(FileExtensions);
    var pieces := QuotedPieces("", FileExtensions);
  }

  // ---------------------------------------------------------------------
  // Logged-in users (get_who)

  /** How one machine's `who -q` output is reported. */
  datatype WhoReport =
    | Unexpected                                    // fewer than two lines
    | CountUnreadable(line: string)                 // the count is not a number
    | ManyUsers(names: seq<string>, count: int, asError: bool)  // different users
    | SameUser(name: string, count: int)            // several sessions of one user
    | OneUser(name: string, count: int)             // a count of at most one

  /** `len(set(names)) == 1`. */
  predicate AllSame(names: seq<string>)
  {
    |names| > 0 && forall i | 0 <= i < |names| :: names[i] == names[0]
  }

  /** `AllSame` is exactly "one distinct name". */
  lemma AllSameIsOneDistinct(names: seq<string>)
    ensures AllSame(names) <==> |set i | 0 <= i < |names| :: names[i]| == 1
  {
    var distinct := set i | 0 <= i < |names| :: names[i];
    if AllSame(names) {
      assert distinct == {names[0]};
    }
    if |distinct| == 1 {
      var a :| a in distinct;
      assert |distinct - {a}| == 0;
      forall i | 0 <= i < |names| ensures names[i] == a {
        assert names[i] in distinct;
      }
    }
  }

  /** The report for one machine: the output is stripped and split into lines;
      the first line's words are the user names, and the count is what
      follows the first '=' of the second line (IndexError when there is
      none).  A count above one is reported as different users, as an error
      on the client, unless all names are the same; otherwise the first
      name is reported (IndexError when there is none). */
  function ClassifyWho(vmName: string, output: string): (r: Result<WhoReport>)
    ensures r == Ok(Unexpected) <==> |Split(Strip(output), '\n')| < 2
    ensures r.Err? ==> r.error == IndexError
    ensures r.Ok? && r.value.ManyUsers? ==> r.value.count > 1 && !AllSame(r.value.names) && (r.value.asError <==> vmName == "client")
    ensures r.Ok? && (r.value.SameUser? || r.value.ManyUsers?) ==> r.value.count > 1
    ensures r.Ok? && r.value.OneUser? ==> r.value.count <= 1
  {
    var lines := Split(Strip(output), '\n');
    if |lines| > 1 then
      var names := Words(lines[0]);
      var field :- At(Split(lines[1], '='), 1);
      match PyInt(Strip(field))
      case Err(_) => Ok(CountUnreadable(lines[1]))
      case Ok(count) =>
        if count > 1 then
          if !AllSame(names) then Ok(ManyUsers(names, count, vmName == "client"))
          else Ok(SameUser(names[0], count))
        else
          var name :- At(names, 0);
          Ok(OneUser(name, count))
    else
      Ok(Unexpected)
  }

  /** The cases of the report, read off the output: a second line without
      '=' raises IndexError; a count that is not a number is reported with
      its line; a count above one names every user when they differ and the
      one user when they are all the same; a count of at most one reports the
      first name, and raises IndexError when the first line has none. */
  lemma ClassifyWhoSpec(vmName: string, output: string)
    requires |Split(Strip(output), '\n')| >= 2
    ensures var lines := Split(Strip(output), '\n');
      var names := Words(lines[0]);
      var fields := Split(lines[1], '=');
      var r := ClassifyWho(vmName, output);
      && (|fields| < 2 ==> r == Err(IndexError))
      && (|fields| >= 2 && PyInt(Strip(fields[1])).Err? ==> r == Ok(CountUnreadable(lines[1])))
      && (|fields| >= 2 && PyInt(Strip(fields[1])).Ok? ==>
            var count := PyInt(Strip(fields[1])).value;
            && (count > 1 && AllSame(names) ==> r == Ok(SameUser(names[0], count)))
            && (count > 1 && !AllSame(names) ==> r == Ok(ManyUsers(names, count, vmName == "client")))
            && (count <= 1 && names == [] ==> r == Err(IndexError))
            && (count <= 1 && names != [] ==> r == Ok(OneUser(names[0], count))))
  {
  }

  /** The second line `who -q` prints. */
  function CountLine(count: nat): string
  {
    "# users=" + NatToString(count)
  }

  /** What `who -q` prints: the user names separated by blanks, then the count. */
  function WhoOutput(names: seq<string>, count: nat): string
    requires |names| > 0
  {
    Join(names, ' ') + ['\n'] + CountLine(count) + ['\n']
  }

  /** Reading `who -q` output back yields the names and the count it was
      printed from, classified by the count and by whether the names differ. */
  lemma ClassifyWhoOutput(vmName: string, names: seq<string>, count: nat)
    requires |names| > 0
    requires forall k | 0 <= k < |names| :: names[k] != [] && NoSpace(names[k])
    ensures ClassifyWho(vmName, WhoOutput(names, count))
         == Ok(if count > 1 then
                 if AllSame(names) then SameUser(names[0], count) else ManyUsers(names, count, vmName == "client")
               else OneUser(names[0], count))
  {
    var output := WhoOutput(names, count);
    WhoLines(names, count);
    CountLineShape(count);
    WordsOfJoin(names);
    CountValue(count);
    var lines := Split(Strip(output), '\n');
    assert lines[0] == Join(names, ' ') && lines[1] == CountLine(count);
    assert Words(lines[0]) == names;
    assert Split(lines[1], '=')[1] == NatToString(count);
    ClassifyWhoSpec(vmName, output);
  }

  /** The printed count reads back as the count. */
  lemma CountValue(count: nat)
    ensures PyInt(Strip(NatToString(count))) == Ok(count)
  {
    var digits := NatToString(count);
    DigitsNoSpace(digits);
    StripNoSpace(digits);
    NatToStringValue(count);
  }

  /** The output, stripped and split at newlines, is the names line and the count line. */
  lemma WhoLines(names: seq<string>, count: nat)
    requires |names| > 0
    requires forall k | 0 <= k < |names| :: names[k] != [] && NoSpace(names[k])
    ensures Split(Strip(WhoOutput(names, count)), '\n') == [Join(names, ' '), CountLine(count)]
  {
    WhoOutputStrip(names, count);
    JoinExcludes(names, ' ', '\n');
    CountLineShape(count);
    SplitAtFirst(Join(names, ' '), '\n', CountLine(count));
  }

  /** Stripping the output leaves the two lines without the final newline. */
  lemma WhoOutputStrip(names: seq<string>, count: nat)
    requires |names| > 0 && names[0] != [] && NoSpace(names[0])
    ensures Strip(WhoOutput(names, count)) == Join(names, ' ') + ['\n'] + CountLine(count)
  {
    var joined := Join(names, ' ');
    var body := joined + ['\n'] + CountLine(count);
    JoinStartsWith(names, ' ');
    assert joined[..|names[0]|] == names[0];
    assert body[0] == joined[0] == names[0][0];
    var digits := NatToString(count);
    assert body[|body| - 1] == digits[|digits| - 1];
    StripLastNewline(body);
  }

  /** A text that starts and ends with non-white-space is what stripping it
      with a newline appended gives. */
  lemma StripLastNewline(body: string)
    requires body != [] && !IsSpace(body[0]) && !IsSpace(body[|body| - 1])
    ensures Strip(body + ['\n']) == body
  {
    var output := body + ['\n'];
    assert LStrip(output) == output;
    assert output[..|output| - 1] == body;
    assert RStrip(body) == body;
  }

  /** The count line has no newline and splits at '=' into label and digits. */
  lemma CountLineShape(count: nat)
    ensures '\n' !in CountLine(count)
    ensures Split(CountLine(count), '\n') == [CountLine(count)]
    ensures Split(CountLine(count), '=') == ["# users", NatToString(count)]
  {
    var digits := NatToString(count);
    DigitsExclude(digits, '\n');
    DigitsExclude(digits, '=');
    assert "# users=" + digits == "# users" + ['='] + digits;
    SplitAtFirst("# users", '=', digits);
  }

  /** `Ok(reports + more)` when the rest succeeds, its error otherwise. */
  function Continue(reports: seq<WhoReport>, more: Result<seq<WhoReport>>): Result<seq<WhoReport>>
  {
    if more.Ok? then Ok(reports + more.value) else more
  }

  /** `get_who` over the connections in order: the server and the client are
      reported; an unreadable count ends the whole check, an IndexError ends
      the program. */
  function WhoReports(connections: seq<(string, string)>): (r: Result<seq<WhoReport>>)
    ensures r.Ok? ==> |r.value| <= |connections|
    ensures r.Ok? ==> forall k | 0 <= k < |r.value| - 1 :: !r.value[k].CountUnreadable?
    ensures r.Err? ==> r.error == IndexError
  {
    if connections == [] then Ok([])
    else WhoStep(connections[0], WhoReports(connections[1..]))
  }

  /** One connection of `get_who`, given what the later ones would report. */
  function WhoStep(connection: (string, string), more: Result<seq<WhoReport>>): (r: Result<seq<WhoReport>>)
    ensures r.Err? ==> r == more || r == Err(IndexError)
  {
    if !IsEndpoint(connection.0) then more
    else
      match ClassifyWho(connection.0, connection.1)
      case Err(e) => Err(e)
      case Ok(report) =>
        if report.CountUnreadable? then Ok([report]) else Continue([report], more)
  }

  lemma ContinueAppend(reports: seq<WhoReport>, report: WhoReport, more: Result<seq<WhoReport>>)
    ensures Continue(reports, Continue([report], more)) == Continue(reports + [report], more)
  {
    if more.Ok? {
      assert reports + ([report] + more.value) == reports + [report] + more.value;
    }
  }

  /** What is left to report after one more connection: nothing new for a
      machine other than the server and the client, else its report. */
  lemma WhoStepContinues(reports: seq<WhoReport>, connection: (string, string), more: Result<seq<WhoReport>>)
    ensures !IsEndpoint(connection.0) ==> Continue(reports, WhoStep(connection, more)) == Continue(reports, more)
    ensures var report := ClassifyWho(connection.0, connection.1);
      IsEndpoint(connection.0) && report.Ok? && !report.value.CountUnreadable? ==>
        Continue(reports, WhoStep(connection, more)) == Continue(reports + [report.value], more)
    ensures var report := ClassifyWho(connection.0, connection.1);
      IsEndpoint(connection.0) && report.Ok? && report.value.CountUnreadable? ==>
        Continue(reports, WhoStep(connection, more)) == Ok(reports + [report.value])
    ensures var report := ClassifyWho(connection.0, connection.1);
      IsEndpoint(connection.0) && report.Err? ==> Continue(reports, WhoStep(connection, more)) == report.PropagateFailure()
  {
    var report := ClassifyWho(connection.0, connection.1);
    if IsEndpoint(connection.0) && report.Ok? && !report.value.CountUnreadable? {
      ContinueAppend(reports, report.value, more);
    }
  }

  /** The loop of `get_who`. */
  method GetWho(connections: seq<(string, string)>) returns (r: Result<seq<WhoReport>>)
    ensures r == WhoReports(connections)
  {
    var reports: seq<WhoReport> := [];
    var i := 0;
    assert connections[0..] == connections;
    assert Continue([], WhoReports(connections)) == WhoReports(connections) by {
      if WhoReports(connections).Ok? {
        assert [] + WhoReports(connections).value == WhoReports(connections).value;
      }
    }
    while i < |connections|
      invariant 0 <= i <= |connections|
      invariant WhoReports(connections) == Continue(reports, WhoReports(connections[i..]))
    {
      var vmName, output := connections[i].0, connections[i].1;
      assert connections[i..] == [connections[i]] + connections[i + 1..];
      ghost var more := WhoReports(connections[i + 1..]);
      assert WhoReports(connections[i..]) == WhoStep(connections[i], more);
      WhoStepContinues(reports, connections[i], more);
      if vmName == "server" || vmName == "client" {
        var report := ClassifyWho(vmName, output);
        if report.Err? {
          return Err(report.error);
        }
        reports := reports + [report.value];
        if report.value.CountUnreadable? {
          return Ok(reports);
        }
      }
      i := i + 1;
    }
    assert connections[i..] == [];
    assert reports + [] == reports;
    return Ok(reports);
  }

  // ---------------------------------------------------------------------
  // The trial schedule (main)

  /** One entry of the test-case file. */
  datatype Testcase = Testcase(server: string, client: string, cc: string)

  /** The name a trial's artifacts are stored under:
      `{server}_{client}_{cc}.{size}.itr{itr}`. */
  function TrialName(testcase: Testcase, size: string, itr: nat): string
  {
    testcase.server + "_" + testcase.client + "_" + testcase.cc + "." + size + ".itr" + NatToString(itr)
  }

  /** The trials of one object size in one iteration, in test-case order. */
  function Round(testcases: seq<Testcase>, size: string, itr: nat): (names: seq<string>)
    ensures |names| == |testcases|
    ensures forall t | 0 <= t < |testcases| :: names[t] == TrialName(testcases[t], size, itr)
  {
    seq(|testcases|, t requires 0 <= t < |testcases| => TrialName(testcases[t], size, itr))
  }

  /** The trials of one iteration: a round per object size, in order. */
  function Sweep(testcases: seq<Testcase>, sizes: seq<string>, itr: nat): (names: seq<string>)
  {
    if sizes == [] then []
    else Sweep(testcases, sizes[..|sizes| - 1], itr) + Round(testcases, sizes[|sizes| - 1], itr)
  }

  /** The trials of the first `n` iterations. */
  function Schedule(testcases: seq<Testcase>, sizes: seq<string>, n: nat): (names: seq<string>)
  {
    if n == 0 then [] else Schedule(testcases, sizes, n - 1) + Sweep(testcases, sizes, n - 1)
  }

  /** An iteration runs one trial per size and test case. */
  lemma {:induction false} SweepLength(testcases: seq<Testcase>, sizes: seq<string>, itr: nat)
    ensures |Sweep(testcases, sizes, itr)| == |sizes| * |testcases|
  {
    if sizes != [] {
      SweepLength(testcases, sizes[..|sizes| - 1], itr);
      assert |sizes| * |testcases| == (|sizes| - 1) * |testcases| + |testcases|;
    }
  }

  /** `run_tot = len(testcases) * NUM_ITR * len(sizes)` counts the schedule. */
  lemma {:induction false} ScheduleLength(testcases: seq<Testcase>, sizes: seq<string>, n: nat)
    ensures |Schedule(testcases, sizes, n)| == |testcases| * n * |sizes|
  {
    if n > 0 {
      ScheduleLength(testcases, sizes, n - 1);
      SweepLength(testcases, sizes, n - 1);
      ProductStep(|testcases|, n, |sizes|);
    }
  }

  lemma ProductStep(a: nat, n: nat, b: nat)
    requires n > 0
    ensures a * n * b == a * (n - 1) * b + b * a
  {
    assert a * n == a * (n - 1) + a;
    assert (a * (n - 1) + a) * b == a * (n - 1) * b + a * b;
  }

  /** Within an iteration, the trial of size `s` and test case `t` sits at
      position `s * len(testcases) + t`. */
  lemma {:induction false} SweepAt(testcases: seq<Testcase>, sizes: seq<string>, itr: nat, s: nat, t: nat)
    requires s < |sizes| && t < |testcases|
    ensures s * |testcases| + t < |Sweep(testcases, sizes, itr)|
    ensures Sweep(testcases, sizes, itr)[s * |testcases| + t] == TrialName(testcases[t], sizes[s], itr)
    decreases |sizes|
  {
    var init := sizes[..|sizes| - 1];
    var m := |testcases|;
    var before := Sweep(testcases, init, itr);
    var round := Round(testcases, sizes[|sizes| - 1], itr);
    SweepLength(testcases, init, itr);
    assert Sweep(testcases, sizes, itr) == before + round;
    if s < |init| {
      SweepAt(testcases, init, itr, s, t);
      MulMonotone(s + 1, |init|, m);
      assert (s + 1) * m == s * m + m;
      assert init[s] == sizes[s];
    } else {
      assert |before| == s * m;
    }
  }

  lemma {:induction false} MulMonotone(a: nat, b: nat, m: nat)
    requires a <= b
    ensures a * m <= b * m
    decreases b - a
  {
    if a < b {
      MulMonotone(a, b - 1, m);
      assert b * m == (b - 1) * m + m;
    }
  }

  lemma RoundStep(testcases: seq<Testcase>, t: nat, size: string, itr: nat)
    requires t < |testcases|
    ensures Round(testcases[..t + 1], size, itr) == Round(testcases[..t], size, itr) + [TrialName(testcases[t], size, itr)]
  {
  }

  lemma SweepStep(testcases: seq<Testcase>, sizes: seq<string>, s: nat, itr: nat)
    requires s < |sizes|
    ensures Sweep(testcases, sizes[..s + 1], itr) == Sweep(testcases, sizes[..s], itr) + Round(testcases, sizes[s], itr)
  {
    assert sizes[..s + 1][..s] == sizes[..s];
  }

  /** One pass of the innermost loop of `main`: a trial per test case for
      one object size, each counted as it starts; a server without a port
      stops the pass. */
  method RunRound(testcases: seq<Testcase>, size: string, itr: nat, endpoints: Endpoints)
    returns (r: Result<seq<string>>, started: nat)
    ensures r.Ok? ==> r.value == Round(testcases, size, itr) && started == |testcases|
    ensures r.Err? ==> exists k | 0 <= k < |testcases| :: DetermineServerPort(testcases[k].server, endpoints) == Err(r.error)
  {
    var names: seq<string> := [];
    started := 0;
    var t := 0;
    while t < |testcases|
      invariant 0 <= t <= |testcases|
      invariant names == Round(testcases[..t], size, itr) && started == t
    {
      var testcase := testcases[t];
      started := started + 1;
      var port := DetermineServerPort(testcase.server, endpoints);
      if port.Err? {
        assert DetermineServerPort(testcases[t].server, endpoints) == Err(port.error);
        return Err(port.error), started;
      }
      names := names + [TrialName(testcase, size, itr)];
      RoundStep(testcases, t, size, itr);
      t := t + 1;
    }
    assert testcases[..t] == testcases;
    return Ok(names), started;
  }

  /** One iteration of `main`: a round per object size, in order. */
  method RunSweep(testcases: seq<Testcase>, sizes: seq<string>, itr: nat, endpoints: Endpoints)
    returns (r: Result<seq<string>>, started: nat)
    ensures r.Ok? ==> r.value == Sweep(testcases, sizes, itr) && started == |r.value|
    ensures r.Err? ==> exists k | 0 <= k < |testcases| :: DetermineServerPort(testcases[k].server, endpoints) == Err(r.error)
  {
    var names: seq<string> := [];
    started := 0;
    var s := 0;
    while s < |sizes|
      invariant 0 <= s <= |sizes|
      invariant names == Sweep(testcases, sizes[..s], itr) && started == |names|
    {
      var round, count := RunRound(testcases, sizes[s], itr, endpoints);
      started := started + count;
      if round.Err? {
        return Err(round.error), started;
      }
      names := names + round.value;
      SweepStep(testcases, sizes, s, itr);
      s := s + 1;
    }
    assert sizes[..s] == sizes;
    return Ok(names), started;
  }

  /** The trial loop of `main`: `NUM_ITR` iterations, each over the object
      sizes, each over the test cases; `run_num` counts trials as they start,
      and a trial whose server has no port stops the run. */
  method RunTrials(testcases: seq<Testcase>, sizes: seq<string>, endpoints: Endpoints)
    returns (r: Result<seq<string>>, runNum: nat)
    ensures r.Ok? ==> r.value == Schedule(testcases, sizes, NumItr) && runNum == |testcases| * NumItr * |sizes|
    ensures r.Err? ==> exists k | 0 <= k < |testcases| :: DetermineServerPort(testcases[k].server, endpoints) == Err(r.error)
  {
    var names: seq<string> := [];
    runNum := 0;
    var itr := 0;
    while itr < NumItr
      invariant 0 <= itr <= NumItr
      invariant names == Schedule(testcases, sizes, itr) && runNum == |names|
    {
      var sweep, started := RunSweep(testcases, sizes, itr, endpoints);
      runNum := runNum + started;
      if sweep.Err? {
        return Err(sweep.error), runNum;
      }
      names := names + sweep.value;
      itr := itr + 1;
    }
    ScheduleLength(testcases, sizes, NumItr);
    return Ok(names), runNum;
  }
}
