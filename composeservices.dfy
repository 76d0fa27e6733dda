/** ListComposeServices in internal/docker/service.go: choosing the compose
    file of a project path, reading it, taking the services of its decoded
    `services` map, and the two fallbacks (`compose config --services`, then
    a dummy service).  The file system, the YAML decoder and the command are
    inputs. */
module ComposeServices {
  import opened Wrappers
  import opened GoStrings
  import opened DockerTypes
  import opened ComposeParse
  import opened ComposeScanner

  /** What os.Stat reports: no such path, an existing path that is not a
      directory, a directory, or another error. */
  datatype PathKind = Missing | File | Directory | StatError

  /** os.Stat succeeded. */
  predicate Exists(k: PathKind) {
    k == File || k == Directory
  }

  /** One service value of the decoded map: its `image` when that is a
      string, and the items of its `ports` list, each present when it is a
      string (a `ports` value that is not a list has no items). */
  datatype ServiceYaml = ServiceYaml(image: Option<string>, ports: seq<Option<string>>)

  /** The decoded compose file: not YAML, no `services` map, or the map from
      service name to the value when that value is itself a map. */
  datatype YamlOutcome = ParseError | NoServicesMap | ServicesMap(services: map<string, Option<ServiceYaml>>)

  /** The error for a compose file without a `services` map,
      "no services found in compose file or invalid format". It is spelled as
      the pieces around its three 'f's, which is the form the proofs about
      the user-facing error messages reason with. */
  const NoServicesFailure := "no services " + "f" + "ound in compose " + "f" + "ile or invalid " + "f" + "ormat"

  /** The compose file names looked for in a directory, in order. */
  const CandidateFiles: seq<string> := ["docker-compose.yml", "docker-compose.yaml", "compose.yml", "compose.yaml"]

  /** filepath.Join of a directory and a file name. */
  function PathJoin(dir: string, file: string): (path: string)
    ensures file != [] ==> path != []
  {
    if dir == "" then file else dir + "/" + file
  }

  // ---------------------------------------------------------------------
  // Choosing the compose file

  /** The first candidate at or after `from` that exists in `dir`. */
  function FirstCandidate(dir: string, stat: string -> PathKind, from: nat): (r: Option<nat>)
    requires from <= |CandidateFiles|
    decreases |CandidateFiles| - from
    ensures r.Some? ==> from <= r.value < |CandidateFiles| && Exists(stat(PathJoin(dir, CandidateFiles[r.value])))
    ensures r.Some? ==> forall j :: from <= j < r.value ==> !Exists(stat(PathJoin(dir, CandidateFiles[j])))
    ensures r.None? ==> forall j :: from <= j < |CandidateFiles| ==> !Exists(stat(PathJoin(dir, CandidateFiles[j])))
  {
    if from == |CandidateFiles| then None
    else if Exists(stat(PathJoin(dir, CandidateFiles[from]))) then Some(from)
    else FirstCandidate(dir, stat, from + 1)
  }

  /** The compose file of a project path, or the error reported. */
  function Locate(projectPath: string, stat: string -> PathKind): Result<string, string>
  {
    if stat(projectPath) == Missing then Failure("project path does not exist: " + projectPath)
    else if stat(projectPath) == File then Success(projectPath)
    else
      match FirstCandidate(projectPath, stat, 0)
      case Some(i) => Success(PathJoin(projectPath, CandidateFiles[i]))
      case None => Failure("no compose file found in path: " + projectPath)
  }

  /** A path that does not exist is an error; a path that is not a directory
      is the compose file itself; otherwise the compose file is the first
      candidate that exists in it, and it is an error when none does. */
  lemma LocateCases(projectPath: string, stat: string -> PathKind)
    ensures stat(projectPath) == Missing ==> Locate(projectPath, stat) == Failure("project path does not exist: " + projectPath)
    ensures stat(projectPath) == File ==> Locate(projectPath, stat) == Success(projectPath)
    ensures stat(projectPath) in {Directory, StatError} ==>
              (Locate(projectPath, stat).Failure? <==> forall j :: 0 <= j < |CandidateFiles| ==> !Exists(stat(PathJoin(projectPath, CandidateFiles[j]))))
    ensures stat(projectPath) in {Directory, StatError} && Locate(projectPath, stat).Failure? ==>
              Locate(projectPath, stat).error == "no compose file found in path: " + projectPath
    ensures stat(projectPath) in {Directory, StatError} && Locate(projectPath, stat).Success? ==>
              exists i | 0 <= i < |CandidateFiles| ::
                && Locate(projectPath, stat).value == PathJoin(projectPath, CandidateFiles[i])
                && Exists(stat(Locate(projectPath, stat).value))
                && forall j :: 0 <= j < i ==> !Exists(stat(PathJoin(projectPath, CandidateFiles[j])))
  {
  }

  lemma FirstCandidateIs(dir: string, stat: string -> PathKind, i: nat)
    requires i < |CandidateFiles| && Exists(stat(PathJoin(dir, CandidateFiles[i])))
    requires forall j :: 0 <= j < i ==> !Exists(stat(PathJoin(dir, CandidateFiles[j])))
    ensures FirstCandidate(dir, stat, 0) == Some(i)
  {
  }

  /** The stat checks and the candidate loop of ListComposeServices. */
  method LocateComposeFile(projectPath: string, stat: string -> PathKind) returns (r: Result<string, string>)
    ensures r == Locate(projectPath, stat)
  {
    if stat(projectPath) == Missing {
      return Failure("project path does not exist: " + projectPath);
    }
    var composePath := "";
    if stat(projectPath) == File {
      composePath := projectPath;
    } else {
      var possible := [PathJoin(projectPath, "docker-compose.yml"), PathJoin(projectPath, "docker-compose.yaml"),
                       PathJoin(projectPath, "compose.yml"), PathJoin(projectPath, "compose.yaml")];
      for k := 0 to |possible|
        invariant forall j :: 0 <= j < k ==> !Exists(stat(PathJoin(projectPath, CandidateFiles[j])))
      {
        assert possible[k] == PathJoin(projectPath, CandidateFiles[k]);
        if Exists(stat(possible[k])) {
          composePath := possible[k];
          FirstCandidateIs(projectPath, stat, k);
          break;
        }
      }
      if composePath == "" {
        return Failure("no compose file found in path: " + projectPath);
      }
    }
    return Success(composePath);
  }

  // ---------------------------------------------------------------------
  // Reading the services map

  /** The record of one service of the map. */
  function FromYaml(name: string, y: ServiceYaml): (s: ComposeServiceInfo)
    ensures s.name == name && s.status == "" && s.containers == []
    ensures s.image == (if y.image.Some? then y.image.value else "")
    ensures s.ports == Present(y.ports)
  {
    ComposeServiceInfo(name, "", if y.image.Some? then y.image.value else "", Present(y.ports), [])
  }

  /** The names whose value is a map. */
  function YamlNames(m: map<string, Option<ServiceYaml>>): set<string> {
    set n | n in m && m[n].Some?
  }

  /** The record for a name of the map. */
  function YamlRecord(m: map<string, Option<ServiceYaml>>): (record: string -> ComposeServiceInfo)
    ensures forall n :: record(n).name == n
  {
    n => if n in m && m[n].Some? then FromYaml(n, m[n].value) else ServiceInfoNamed(n)
  }

  /** The port items that are strings, in list order. */
  method StringItems(items: seq<Option<string>>) returns (ports: seq<string>)
    ensures ports == Present(items)
  {
    ports := [];
    for k := 0 to |items|
      invariant ports == Present(items[..k])
    {
      assert items[..k + 1] == items[..k] + [items[k]];
      PresentSnoc(items[..k], items[k]);
      if items[k].Some? {
        ports := ports + [items[k].value];
      }
    }
    assert items[..|items|] == items;
  }

  /** The loop over the services map: one record per service whose value is
      a map, in the map's (unspecified) order. */
  method ServicesFromMap(m: map<string, Option<ServiceYaml>>) returns (services: seq<ComposeServiceInfo>)
    ensures OneRecordPerName(YamlNames(m), YamlRecord(m), services)
  {
    ghost var names := YamlNames(m);
    ghost var record := YamlRecord(m);
    var remaining := m.Keys;
    services := [];
    assert remaining * names == names;
    while remaining != {}
      invariant remaining <= m.Keys
      invariant Collected(names, remaining * names, record, services)
      decreases |remaining|
    {
      var name :| name in remaining;
      var entry := m[name];
      if entry.Some? {
        var y := entry.value;
        var image := "";
        if y.image.Some? {
          image := y.image.value;
        }
        var ports := StringItems(y.ports);
        var service := ComposeServiceInfo(name, "", image, ports, []);
        assert service == record(name);
        CollectedStep(names, remaining * names, record, services, name);
        assert (remaining - {name}) * names == remaining * names - {name};
        services := services + [service];
      } else {
        assert (remaining - {name}) * names == remaining * names;
      }
      remaining := remaining - {name};
    }
    CollectedAll(names, record, services);
  }

  // ---------------------------------------------------------------------
  // Fallbacks

  /** The service one line of `compose config --services` names, if any. */
  function CliLine(line: string): Option<ComposeServiceInfo> {
    var name := TrimSpace(line);
    if name != "" then Some(ServiceInfoNamed(name)) else None
  }

  /** The services `compose config --services` lists: one per non-blank
      line, trimmed, with only a name. */
  function CliServices(out: string): seq<ComposeServiceInfo> {
    Present(CliLines(Split(TrimSpace(out), "\n")))
  }

  /** What each line of the CLI output yields. */
  function CliLines(lines: seq<string>): (opts: seq<Option<ComposeServiceInfo>>)
    ensures |opts| == |lines| && forall i :: 0 <= i < |lines| ==> opts[i] == CliLine(lines[i])
  {
    seq(|lines|, i requires 0 <= i < |lines| => CliLine(lines[i]))
  }

  /** Every service the given lines yield has a non-empty name free of
      surrounding white space, and only a name. */
  lemma CliLinesNamed(lines: seq<string>)
    ensures forall s :: s in Present(CliLines(lines)) ==>
              s.name != [] && !IsSpace(s.name[0]) && !IsSpace(s.name[|s.name| - 1]) && s == ServiceInfoNamed(s.name)
  {
    PresentFrom(CliLines(lines));
  }

  /** Every CLI-listed service has a non-empty name free of surrounding white
      space, and only a name. */
  lemma CliServicesNamed(out: string)
    ensures forall s :: s in CliServices(out) ==>
              s.name != [] && !IsSpace(s.name[0]) && !IsSpace(s.name[|s.name| - 1]) && s == ServiceInfoNamed(s.name)
  {
    CliLinesNamed(Split(TrimSpace(out), "\n"));
  }

  /** The body of the fallback loop for one line. */
  method ServiceOfLine(line: string) returns (found: Option<ComposeServiceInfo>)
    ensures found == CliLine(line)
  {
    var name := TrimSpace(line);
    found := None;
    if name != "" {
      found := Some(ServiceInfoNamed(name));
    }
  }

  /** The fallback reading of `compose config --services` output. */
  method ServicesFromCli(out: string) returns (services: seq<ComposeServiceInfo>)
    ensures services == CliServices(out)
  {
    services := ServicesFromLines(Split(TrimSpace(out), "\n"));
  }

  /** The fallback loop over the lines of that output. */
  method ServicesFromLines(names: seq<string>) returns (services: seq<ComposeServiceInfo>)
    ensures services == Present(CliLines(names))
  {
    services := [];
    for k := 0 to |names|
      invariant services == Present(CliLines(names[..k]))
    {
      var found := ServiceOfLine(names[k]);
      CliLinesStep(names, k);
      if found.Some? {
        services := services + [found.value];
      }
    }
    assert names[..|names|] == names;
  }

  /** The services of a prefix grow by the service of the next line. */
  lemma CliLinesStep(names: seq<string>, k: nat)
    requires k < |names|
    ensures Present(CliLines(names[..k + 1])) == Present(CliLines(names[..k]))
              + (if CliLine(names[k]).Some? then [CliLine(names[k]).value] else [])
  {
    assert CliLines(names[..k + 1]) == CliLines(names[..k]) + [CliLine(names[k])];
    PresentSnoc(CliLines(names[..k]), CliLine(names[k]));
  }

  /** The service returned when nothing else was found. */
  const DummyService := ComposeServiceInfo("test-service", "", "test/image:latest", ["8080:80"], [])

  /** The services returned for a decoded map: the map's when it has any;
      otherwise those listed by the CLI when it ran and listed any;
      otherwise the dummy service. */
  predicate Resolved(m: map<string, Option<ServiceYaml>>, configServices: CmdResult, services: seq<ComposeServiceInfo>) {
    if YamlNames(m) != {} then OneRecordPerName(YamlNames(m), YamlRecord(m), services)
    else if configServices.Ran? && CliServices(configServices.output) != [] then services == CliServices(configServices.output)
    else services == [DummyService]
  }

  /** Whatever the map and the CLI give, some service is returned. */
  lemma ResolvedNonEmpty(m: map<string, Option<ServiceYaml>>, configServices: CmdResult, services: seq<ComposeServiceInfo>)
    requires Resolved(m, configServices, services)
    ensures |services| >= 1
  {
    if YamlNames(m) != {} {
      var n :| n in YamlNames(m);
      assert exists k :: 0 <= k < |services| && services[k].name == n;
    }
  }

  /** The errors before any service is read: locating the file, reading it,
      an empty file, a file that is not YAML, a file without a services map. */
  function Load(projectPath: string, stat: string -> PathKind, read: string -> Option<string>,
                decode: string -> YamlOutcome): (r: Result<map<string, Option<ServiceYaml>>, string>)
    ensures Locate(projectPath, stat).Failure? ==> r == Failure(Locate(projectPath, stat).error)
    ensures Locate(projectPath, stat).Success? ==>
              var path := Locate(projectPath, stat).value;
              && (read(path).None? ==> r == Failure("failed to read compose file"))
              && (read(path) == Some("") ==> r == Failure("compose file is empty: " + path))
              && (read(path).Some? && read(path).value != "" ==>
                    match decode(read(path).value)
                    case ParseError => r == Failure("failed to parse compose file")
                    case NoServicesMap => r == Failure(NoServicesFailure)
                    case ServicesMap(m) => r == Success(m))
  {
    match Locate(projectPath, stat)
    case Failure(e) => Failure(e)
    case Success(path) =>
      match read(path)
      case None => Failure("failed to read compose file")
      case Some(content) =>
        if content == "" then Failure("compose file is empty: " + path)
        else
          match decode(content)
          case ParseError => Failure("failed to parse compose file")
          case NoServicesMap => Failure(NoServicesFailure)
          case ServicesMap(m) => Success(m)
  }

  /** ListComposeServices. */
  method ListComposeServices(projectPath: string, stat: string -> PathKind, read: string -> Option<string>,
                             decode: string -> YamlOutcome, configServices: CmdResult)
    returns (r: Result<seq<ComposeServiceInfo>, string>)
    ensures Load(projectPath, stat, read, decode).Failure? ==> r == Failure(Load(projectPath, stat, read, decode).error)
    ensures Load(projectPath, stat, read, decode).Success? ==>
              r.Success? && Resolved(Load(projectPath, stat, read, decode).value, configServices, r.value)
    ensures r.Success? ==> |r.value| >= 1
  {
    var located := LocateComposeFile(projectPath, stat);
    if located.Failure? {
      return Failure(located.error);
    }
    var composePath := located.value;
    var content := read(composePath);
    if content.None? {
      return Failure("failed to read compose file");
    }
    if content.value == "" {
      return Failure("compose file is empty: " + composePath);
    }
    var decoded := decode(content.value);
    if decoded.ParseError? {
      return Failure("failed to parse compose file");
    }
    if decoded.NoServicesMap? {
      return Failure(NoServicesFailure);
    }
    var m := decoded.services;
    var services := ServicesFromMap(m);
    if |services| == 0 && configServices.Ran? {
      services := ServicesFromCli(configServices.output);
    }
    if |services| == 0 {
      services := [DummyService];
    }
    r := Success(services);
    assert Resolved(m, configServices, services);
    ResolvedNonEmpty(m, configServices, services);
  }
}
