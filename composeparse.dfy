/** The interpreters of compose CLI text in internal/docker/service.go:
    parseComposeOutputManually (`compose ls` without usable JSON),
    parseComposeTextOutput (`compose ps` as a table) and the path lookup of
    findComposeProjectPath.  The subprocesses themselves are inputs: their
    outputs are passed in as strings, an unavailable output as None. */
module ComposeParse {
  import opened Wrappers
  import opened GoStrings
  import opened DockerTypes

  /** The lines of a command's output. */
  function OutputLines(output: string): (lines: seq<string>)
    ensures |lines| >= 1
    ensures Join(lines, "\n") == output
  {
    SplitJoin(output, "\n");
    Split(output, "\n")
  }

  /** The present values of a sequence of optional values, in order. */
  function Present<T>(opts: seq<Option<T>>): (xs: seq<T>)
    ensures |xs| <= |opts|
  {
    if opts == [] then []
    else
      var rest := Present(opts[..|opts| - 1]);
      match opts[|opts| - 1]
      case Some(x) => rest + [x]
      case None => rest
  }

  /** Every present value comes from one position. */
  lemma {:induction false} PresentFrom<T>(opts: seq<Option<T>>)
    ensures forall x :: x in Present(opts) ==> exists i | 0 <= i < |opts| :: opts[i] == Some(x)
  {
    if opts != [] {
      var init := opts[..|opts| - 1];
      PresentFrom(init);
      forall x | x in Present(opts)
        ensures exists i | 0 <= i < |opts| :: opts[i] == Some(x)
      {
        if x in Present(init) {
          var i :| 0 <= i < |init| && init[i] == Some(x);
          assert opts[i] == Some(x);
        } else {
          assert opts[|opts| - 1] == Some(x);
        }
      }
    }
  }

  /** Every position holding a value contributes it. */
  lemma {:induction false} PresentHas<T>(opts: seq<Option<T>>, i: nat)
    requires i < |opts| && opts[i].Some?
    ensures opts[i].value in Present(opts)
    decreases |opts|
  {
    if i < |opts| - 1 {
      var init := opts[..|opts| - 1];
      assert init[i] == opts[i];
      PresentHas(init, i);
    }
  }

  /** Appending one optional value. */
  lemma PresentSnoc<T>(opts: seq<Option<T>>, o: Option<T>)
    ensures Present(opts + [o]) == Present(opts) + (if o.Some? then [o.value] else [])
  {
    assert (opts + [o])[..|opts|] == opts;
  }

  // ---------------------------------------------------------------------
  // parseComposeOutputManually

  const NameKey := "\"name\":"
  const PathKey := "\"path\":"
  const StatusKey := "\"status\":"

  /** The characters stripped from a JSON-ish value. */
  const ValueCutset: set<char> := {' ', '\t', '"', ','}

  /** The value after `key` on a JSON-ish line, up to the next comma, with
      blanks, quotes and commas trimmed; None when the key does not occur. */
  function KeyValue(line: string, key: string): (r: Option<string>)
    requires key != []
    ensures r.Some? <==> Contains(line, key)
  {
    SplitSeveralIff(line, key);
    var parts := Split(line, key);
    if |parts| < 2 then None
    else Some(Trim(Split(parts[1], ",")[0], ValueCutset))
  }

  /** A line of the table form: no `"name":` key and at least two columns. */
  predicate TableLine(line: string) {
    !Contains(line, NameKey) && |Fields(line)| >= 2
  }

  /** Line 0 that mentions a name column, or a white-space line. */
  predicate ManualSkipped(i: nat, line: string) {
    (i == 0 && (Contains(line, "NAME") || Contains(line, "name"))) || TrimSpace(line) == ""
  }

  /** The record a JSON-ish line yields, if any. */
  function JsonRecord(line: string): (r: Option<ComposeInfo>)
    ensures r.Some? ==> Contains(line, NameKey) && Contains(line, PathKey)
    ensures r.Some? ==> r.value.name != [] && r.value.name == KeyValue(line, NameKey).value
    ensures r.Some? ==> r.value.path == KeyValue(line, PathKey).value
    ensures r.Some? ==> (r.value.status == if Contains(line, StatusKey) then KeyValue(line, StatusKey).value else "unknown")
    ensures Contains(line, NameKey) && Contains(line, PathKey) && KeyValue(line, NameKey).value != [] ==> r.Some?
  {
    match KeyValue(line, NameKey)
    case None => None
    case Some(name) =>
      match KeyValue(line, PathKey)
      case None => None
      case Some(path) =>
        var status := match KeyValue(line, StatusKey) case Some(st) => st case None => "unknown";
        if name == "" then None else Some(ComposeInfo(name, path, [], status, ""))
  }

  /** The record line `i` of `compose ls` output yields, if any. */
  function ManualLine(i: nat, line: string): Option<ComposeInfo> {
    if ManualSkipped(i, line) then None
    else if TableLine(line) then
      var parts := Fields(line);
      Some(ComposeInfo(parts[0], if |parts| >= 3 then parts[2] else ".", [], parts[1], ""))
    else if Contains(line, "name") && Contains(line, "path") then JsonRecord(line)
    else None
  }

  /** Skipped lines yield nothing; a table line yields name, status and path
      (or ".") from its first three columns; any other line yields a record
      only as a JSON-ish line mentioning both "name" and "path"; a record
      always has a name. */
  lemma ManualLineCases(i: nat, line: string)
    ensures ManualSkipped(i, line) ==> ManualLine(i, line) == None
    ensures !ManualSkipped(i, line) && TableLine(line) ==>
              var parts := Fields(line);
              ManualLine(i, line) == Some(ComposeInfo(parts[0], if |parts| >= 3 then parts[2] else ".", [], parts[1], ""))
    ensures !ManualSkipped(i, line) && !TableLine(line) ==>
              ManualLine(i, line) == (if Contains(line, "name") && Contains(line, "path") then JsonRecord(line) else None)
    ensures ManualLine(i, line).Some? ==> ManualLine(i, line).value.name != []
  {
    if !ManualSkipped(i, line) && TableLine(line) {
      assert Fields(line)[0] != [];
    }
  }

  /** What each line yields. */
  function ManualLines(lines: seq<string>): (opts: seq<Option<ComposeInfo>>)
    ensures |opts| == |lines| && forall i :: 0 <= i < |lines| ==> opts[i] == ManualLine(i, lines[i])
  {
    seq(|lines|, i requires 0 <= i < |lines| => ManualLine(i, lines[i]))
  }

  /** The records of all lines, in line order. */
  function ManualRecords(lines: seq<string>): (projects: seq<ComposeInfo>)
    ensures |projects| <= |lines|
  {
    Present(ManualLines(lines))
  }

  /** Every record comes from exactly the line that yields it and has a
      non-empty name; every line that yields a record contributes it. */
  lemma ManualRecordsFromLines(lines: seq<string>)
    ensures forall p :: p in ManualRecords(lines) ==>
              p.name != [] && exists i | 0 <= i < |lines| :: ManualLine(i, lines[i]) == Some(p)
    ensures forall i :: 0 <= i < |lines| && ManualLine(i, lines[i]).Some? ==>
              ManualLine(i, lines[i]).value in ManualRecords(lines)
  {
    var opts := ManualLines(lines);
    PresentFrom(opts);
    forall i | 0 <= i < |lines| {
      ManualLineCases(i, lines[i]);
    }
    forall i | 0 <= i < |lines| && ManualLine(i, lines[i]).Some?
      ensures ManualLine(i, lines[i]).value in ManualRecords(lines)
    {
      PresentHas(opts, i);
    }
  }

  /** The body of parseComposeOutputManually's loop for line `i`: None where
      the loop continues without appending. */
  method ParseManualLine(i: nat, line: string) returns (found: Option<ComposeInfo>)
    ensures found == ManualLine(i, line)
  {
    if i == 0 && (Contains(line, "NAME") || Contains(line, "name")) {
      return None;
    }
    if TrimSpace(line) == "" {
      return None;
    }
    if !Contains(line, NameKey) {
      var parts := Fields(line);
      if |parts| >= 2 {
        var path := if |parts| >= 3 then parts[2] else ".";
        return Some(ComposeInfo(parts[0], path, [], parts[1], ""));
      }
    }
    if Contains(line, "name") && Contains(line, "path") {
      var name := KeyValue(line, NameKey);
      if name.None? {
        return None;
      }
      var path := KeyValue(line, PathKey);
      if path.None? {
        return None;
      }
      var status := "unknown";
      if Contains(line, StatusKey) {
        status := KeyValue(line, StatusKey).value;
      }
      if name.value != "" {
        return Some(ComposeInfo(name.value, path.value, [], status, ""));
      }
    }
    return None;
  }

  /** parseComposeOutputManually: one pass over the lines, appending the
      record each line yields. */
  method ParseManual(output: string) returns (projects: seq<ComposeInfo>)
    ensures projects == ManualRecords(OutputLines(output))
  {
    projects := ParseManualLines(OutputLines(output));
  }

  /** The loop of parseComposeOutputManually over the lines of the output. */
  method ParseManualLines(lines: seq<string>) returns (projects: seq<ComposeInfo>)
    ensures projects == ManualRecords(lines)
  {
    projects := [];
    for i := 0 to |lines|
      invariant projects == ManualRecords(lines[..i])
    {
      var found := ParseManualLine(i, lines[i]);
      ManualRecordsStep(lines, i);
      if found.Some? {
        projects := projects + [found.value];
      }
    }
    assert lines[..|lines|] == lines;
  }

  /** The records of a prefix grow by the record of the next line. */
  lemma ManualRecordsStep(lines: seq<string>, i: nat)
    requires i < |lines|
    ensures ManualRecords(lines[..i + 1]) == ManualRecords(lines[..i])
              + (if ManualLine(i, lines[i]).Some? then [ManualLine(i, lines[i]).value] else [])
  {
    assert ManualLines(lines[..i + 1]) == ManualLines(lines[..i]) + [ManualLine(i, lines[i])];
    PresentSnoc(ManualLines(lines[..i]), ManualLine(i, lines[i]));
  }

  // ---------------------------------------------------------------------
  // parseComposeTextOutput

  /** The status column: "unknown" for three columns, otherwise every column
      from the third on, joined by single spaces. */
  function PsStatus(parts: seq<string>): (status: string)
    requires |parts| >= 3
    ensures |parts| >= 4 ==> status == Join(parts[2..], " ")
    ensures status == "unknown" <==> |parts| == 3
  {
    if |parts| >= 4 then
      JoinedFieldsHaveSpace(parts[2..]);
      assert ' ' !in "unknown";
      Join(parts[2..], " ")
    else "unknown"
  }

  /** The state guessed from a status text. */
  function PsState(status: string): (state: string)
    ensures Contains(ToLower(status), "up") ==> state == "running"
    ensures !Contains(ToLower(status), "up") && Contains(ToLower(status), "exited") ==> state == "exited"
    ensures !Contains(ToLower(status), "up") && !Contains(ToLower(status), "exited") ==> state == "unknown"
    ensures state in {"running", "exited", "unknown"}
  {
    var lower := ToLower(status);
    if Contains(lower, "up") then "running"
    else if Contains(lower, "exited") then "exited"
    else "unknown"
  }

  /** The service part of a `project_service_n` container name: the second
      `_`-separated piece, or "" when the name has no `_`. */
  function PsService(name: string): (service: string)
    ensures !Contains(name, "_") ==> service == ""
    ensures Contains(name, "_") ==> service == Split(name, "_")[1]
    ensures !Contains(service, "_")
  {
    SplitSeveralIff(name, "_");
    SplitPiecesAvoidSep(name, "_");
    var pieces := Split(name, "_");
    if |pieces| > 1 then pieces[1] else ""
  }

  /** The container record line `i` of `compose ps` output yields, if any. */
  function PsLine(i: nat, line: string): Option<ContainerInfo> {
    if i == 0 || TrimSpace(line) == "" then None
    else
      var parts := Fields(line);
      if |parts| < 3 then None
      else
        var status := PsStatus(parts);
        Some(ContainerInfo(ShortId(parts[0]), WithService(parts[1], PsService(parts[1])), "", "", status, PsState(status)))
  }

  /** The header, blank lines and lines of fewer than three columns yield
      nothing; any other line yields a container whose ID is a prefix of at
      most 12 characters of the first column, whose name carries the service
      part of the second column, and whose status and state follow PsStatus
      and PsState. */
  lemma PsLineCases(i: nat, line: string)
    ensures i == 0 || TrimSpace(line) == "" || |Fields(line)| < 3 <==> PsLine(i, line) == None
    ensures PsLine(i, line).Some? ==>
              var r := PsLine(i, line).value;
              var parts := Fields(line);
              && |r.id| <= 12 && HasPrefix(parts[0], r.id)
              && r.name == WithService(parts[1], PsService(parts[1]))
              && r.image == "" && r.command == ""
              && r.status == PsStatus(parts)
              && r.state == PsState(r.status)
  {
  }

  /** What each line yields. */
  function PsLines(lines: seq<string>): (opts: seq<Option<ContainerInfo>>)
    ensures |opts| == |lines| && forall i :: 0 <= i < |lines| ==> opts[i] == PsLine(i, lines[i])
  {
    seq(|lines|, i requires 0 <= i < |lines| => PsLine(i, lines[i]))
  }

  /** The containers of all lines, in line order. */
  function PsRecords(lines: seq<string>): (infos: seq<ContainerInfo>)
    ensures |infos| <= |lines|
  {
    Present(PsLines(lines))
  }

  /** Every parsed container comes from one line after the header, and its
      ID has at most 12 characters; every line that yields a container
      contributes it. */
  lemma PsRecordsFromLines(lines: seq<string>)
    ensures forall c :: c in PsRecords(lines) ==>
              |c.id| <= 12 && exists i | 1 <= i < |lines| :: PsLine(i, lines[i]) == Some(c)
    ensures forall i :: 0 <= i < |lines| && PsLine(i, lines[i]).Some? ==>
              PsLine(i, lines[i]).value in PsRecords(lines)
  {
    var opts := PsLines(lines);
    PresentFrom(opts);
    forall i | 0 <= i < |lines| {
      PsLineCases(i, lines[i]);
    }
    forall i | 0 <= i < |lines| && PsLine(i, lines[i]).Some?
      ensures PsLine(i, lines[i]).value in PsRecords(lines)
    {
      PresentHas(opts, i);
    }
  }

  /** parseComposeTextOutput: one pass over the lines, appending the record
      each line yields. */
  method ParsePsText(output: string) returns (infos: seq<ContainerInfo>)
    ensures infos == PsRecords(OutputLines(output))
  {
    infos := ParsePsLines(OutputLines(output));
  }

  /** The loop of parseComposeTextOutput over the lines of the output. */
  method ParsePsLines(lines: seq<string>) returns (infos: seq<ContainerInfo>)
    ensures infos == PsRecords(lines)
  {
    infos := [];
    for i := 0 to |lines|
      invariant infos == PsRecords(lines[..i])
    {
      var found := ParsePsLine(i, lines[i]);
      PsRecordsStep(lines, i);
      if found.Some? {
        infos := infos + [found.value];
      }
    }
    assert lines[..|lines|] == lines;
  }

  /** The records of a prefix grow by the record of the next line. */
  lemma PsRecordsStep(lines: seq<string>, i: nat)
    requires i < |lines|
    ensures PsRecords(lines[..i + 1]) == PsRecords(lines[..i])
              + (if PsLine(i, lines[i]).Some? then [PsLine(i, lines[i]).value] else [])
  {
    assert PsLines(lines[..i + 1]) == PsLines(lines[..i]) + [PsLine(i, lines[i])];
    PresentSnoc(PsLines(lines[..i]), PsLine(i, lines[i]));
  }

  /** One pass of the loop body of parseComposeTextOutput: the record line
      `i` yields, if any. */
  method ParsePsLine(i: nat, line: string) returns (found: Option<ContainerInfo>)
    ensures found == PsLine(i, line)
  {
    if i == 0 || TrimSpace(line) == "" {
      return None;
    }
    var parts := Fields(line);
    if |parts| < 3 {
      return None;
    }
    var id := parts[0];
    if |id| > 12 {
      id := id[..12];
    }
    var name := parts[1];
    var status := "unknown";
    if |parts| >= 4 {
      status := Join(parts[2..], " ");
    }
    var state := "unknown";
    if Contains(ToLower(status), "up") {
      state := "running";
    } else if Contains(ToLower(status), "exited") {
      state := "exited";
    }
    var service := "";
    var pieces := Split(name, "_");
    if |pieces| > 1 {
      service := pieces[1];
    }
    var display := name;
    if service != "" {
      display := name + " (" + service + ")";
    }
    found := Some(ContainerInfo(id, display, "", "", status, state));
  }

  // ---------------------------------------------------------------------
  // findComposeProjectPath

  /** A line of `compose ls -a` that names the project and has a path column. */
  predicate ListsProject(line: string, name: string) {
    Contains(line, name) && |Fields(line)| >= 3
  }

  /** The first line at or after `from` that lists the project. */
  function FirstListing(lines: seq<string>, name: string, from: nat): (r: Option<nat>)
    requires from <= |lines|
    decreases |lines| - from
    ensures r.Some? ==> from <= r.value < |lines| && ListsProject(lines[r.value], name)
    ensures r.Some? ==> forall j :: from <= j < r.value ==> !ListsProject(lines[j], name)
    ensures r.None? ==> forall j :: from <= j < |lines| ==> !ListsProject(lines[j], name)
  {
    if from == |lines| then None
    else if ListsProject(lines[from], name) then Some(from)
    else FirstListing(lines, name, from + 1)
  }

  /** The path findComposeProjectPath settles on.  `workingDir` is the
      `working_dir` string of `compose config` (None when the command fails,
      its output is not JSON or the key is not a string); `listing` is the
      output of `compose ls -a` (None when the command fails). */
  function ProjectPath(name: string, workingDir: Option<string>, listing: Option<string>): (path: string)
    ensures path != []
    ensures workingDir.Some? && workingDir.value != "" ==> path == workingDir.value
  {
    if workingDir.Some? && workingDir.value != "" then workingDir.value
    else if listing.None? then "."
    else ListingPath(OutputLines(listing.value), name)
  }

  /** The path a `compose ls -a` listing gives for the project. */
  function ListingPath(lines: seq<string>, name: string): (path: string)
    ensures path != []
  {
    match FirstListing(lines, name, 0)
    case Some(j) => Fields(lines[j])[2]
    case None => "."
  }

  /** The listing gives the third column of the first line that names the
      project and has three columns, and "." when no line does. */
  lemma ListingPathIsFirstMatch(lines: seq<string>, name: string)
    ensures (exists j | 0 <= j < |lines| :: ListsProject(lines[j], name)) ==>
              exists j | 0 <= j < |lines| ::
                && ListsProject(lines[j], name)
                && (forall i :: 0 <= i < j ==> !ListsProject(lines[i], name))
                && ListingPath(lines, name) == Fields(lines[j])[2]
    ensures (forall j :: 0 <= j < |lines| ==> !ListsProject(lines[j], name)) ==> ListingPath(lines, name) == "."
  {
    match FirstListing(lines, name, 0)
    case Some(j) =>
    case None =>
  }

  /** The scan over `compose ls -a` lines: returns at the first line that
      names the project and has a third column. */
  method ScanListing(lines: seq<string>, name: string) returns (path: Option<string>)
    ensures path.Some? <==> FirstListing(lines, name, 0).Some?
    ensures path.Some? ==> path.value == Fields(lines[FirstListing(lines, name, 0).value])[2]
  {
    for k := 0 to |lines|
      invariant forall j :: 0 <= j < k ==> !ListsProject(lines[j], name)
    {
      var line := lines[k];
      if Contains(line, name) {
        var parts := Fields(line);
        if |parts| >= 3 {
          assert FirstListing(lines, name, 0) == Some(k) by {
            FirstListingIsFirst(lines, name, k);
          }
          return Some(parts[2]);
        }
      }
    }
    FirstListingNone(lines, name);
    return None;
  }

  lemma FirstListingIsFirst(lines: seq<string>, name: string, k: nat)
    requires k < |lines| && ListsProject(lines[k], name)
    requires forall j :: 0 <= j < k ==> !ListsProject(lines[j], name)
    ensures FirstListing(lines, name, 0) == Some(k)
  {
  }

  lemma FirstListingNone(lines: seq<string>, name: string)
    requires forall j :: 0 <= j < |lines| ==> !ListsProject(lines[j], name)
    ensures FirstListing(lines, name, 0).None?
  {
  }

  /** findComposeProjectPath: the working directory of `compose config` when
      it is a non-empty string, otherwise the third column of the first
      matching `compose ls -a` line, otherwise ".". */
  method FindProjectPath(name: string, workingDir: Option<string>, listing: Option<string>)
    returns (path: string)
    ensures path == ProjectPath(name, workingDir, listing)
    ensures path != []
  {
    if workingDir.Some? && workingDir.value != "" {
      return workingDir.value;
    }
    if listing.Some? {
      var found := ScanListing(OutputLines(listing.value), name);
      if found.Some? {
        return found.value;
      }
    }
    return ".";
  }
}
