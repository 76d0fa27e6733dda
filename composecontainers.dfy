/** ListComposeContainers in internal/docker/service.go: the chain of
    strategies that finds the containers of a compose project.  The Docker
    API's label-filtered listing and the three `compose ps` invocations are
    inputs; `compose ps --format json` is passed in decoded. */
module ComposeContainers {
  import opened Wrappers
  import opened GoStrings
  import opened DockerTypes
  import opened ComposeParse

  // ---------------------------------------------------------------------
  // getContainersByProjectName

  /** The Docker API answers a label-filtered listing with containers whose
      first name is not empty. */
  ghost predicate LabelListingWellFormed(byLabel: string -> Result<seq<ApiContainer>, string>) {
    forall p :: byLabel(p).Success? ==> forall c :: c in byLabel(p).value ==> NamesWellFormed(c.names)
  }

  /** The containers carrying `com.docker.compose.project=<project>`, mapped
      in listing order; a listing error yields none. */
  function ByLabel(project: string, byLabel: string -> Result<seq<ApiContainer>, string>): (cs: seq<ContainerInfo>)
    requires LabelListingWellFormed(byLabel)
    ensures byLabel(project).Failure? ==> cs == []
    ensures byLabel(project).Success? ==>
              |cs| == |byLabel(project).value|
              && forall k :: 0 <= k < |cs| ==> cs[k] == ContainerFromLabelled(byLabel(project).value[k])
  {
    match byLabel(project)
    case Failure(_) => []
    case Success(listed) => seq(|listed|, k requires 0 <= k < |listed| => ContainerFromLabelled(listed[k]))
  }

  /** getContainersByProjectName: one label-filtered listing, each container
      mapped with its service label. */
  method ContainersByProjectName(project: string, byLabel: string -> Result<seq<ApiContainer>, string>)
    returns (infos: seq<ContainerInfo>)
    requires LabelListingWellFormed(byLabel)
    ensures infos == ByLabel(project, byLabel)
  {
    var listed := byLabel(project);
    if listed.Failure? {
      return [];
    }
    var raw := listed.value;
    infos := [];
    for k := 0 to |raw|
      invariant |infos| == k && forall j :: 0 <= j < k ==> infos[j] == ContainerFromLabelled(raw[j])
    {
      infos := infos + [ContainerFromLabelled(raw[k])];
    }
  }

  // ---------------------------------------------------------------------
  // getContainersByComposeCommand

  /** One object of `compose ps --format json`; a missing or non-string
      field decodes to "". */
  datatype PsEntry = PsEntry(id: string, name: string, image: string, state: string, status: string, service: string)

  /** The three `compose ps` invocations for one project and the JSON
      decoder applied to the first one's output. */
  datatype ComposeCli = ComposeCli(
    psJson: CmdResult, decode: string -> Option<seq<PsEntry>>, psText: CmdResult, legacyPs: CmdResult)

  /** The container record of one `ps --format json` entry. */
  function FromPsEntry(e: PsEntry): (c: ContainerInfo)
    ensures |c.id| <= 12 && HasPrefix(e.id, c.id)
    ensures c.name == WithService(e.name, e.service)
    ensures c.image == e.image && c.status == e.status && c.state == e.state && c.command == ""
  {
    ContainerInfo(ShortId(e.id), WithService(e.name, e.service), e.image, "", e.status, e.state)
  }

  /** What each entry yields: entries without an ID are dropped. */
  function PsEntryRecords(entries: seq<PsEntry>): seq<ContainerInfo> {
    Present(seq(|entries|, k requires 0 <= k < |entries| =>
      if entries[k].id != "" then Some(FromPsEntry(entries[k])) else None))
  }

  /** The JSON path keeps exactly the entries with an ID, each with a
      non-empty short ID. */
  lemma PsEntryRecordsProperties(entries: seq<PsEntry>)
    ensures |PsEntryRecords(entries)| <= |entries|
    ensures forall c :: c in PsEntryRecords(entries) ==>
              c.id != "" && exists k | 0 <= k < |entries| :: entries[k].id != "" && c == FromPsEntry(entries[k])
    ensures forall k :: 0 <= k < |entries| && entries[k].id != "" ==> FromPsEntry(entries[k]) in PsEntryRecords(entries)
  {
    var opts := seq(|entries|, k requires 0 <= k < |entries| =>
      if entries[k].id != "" then Some(FromPsEntry(entries[k])) else None);
    PresentFrom(opts);
    forall k | 0 <= k < |entries| && entries[k].id != ""
      ensures FromPsEntry(entries[k]) in PsEntryRecords(entries)
    {
      PresentHas(opts, k);
    }
  }

  /** The loop over decoded `ps --format json` entries. */
  method ContainersFromPsEntries(entries: seq<PsEntry>) returns (infos: seq<ContainerInfo>)
    ensures infos == PsEntryRecords(entries)
  {
    ghost var opts: seq<Option<ContainerInfo>> := [];
    infos := [];
    for k := 0 to |entries|
      invariant |opts| == k
      invariant forall j :: 0 <= j < k ==> opts[j] == if entries[j].id != "" then Some(FromPsEntry(entries[j])) else None
      invariant infos == Present(opts)
    {
      var e := entries[k];
      var o := if e.id != "" then Some(FromPsEntry(e)) else None;
      PresentSnoc(opts, o);
      opts := opts + [o];
      if e.id != "" {
        var id := e.id;
        if |id| > 12 {
          id := id[..12];
        }
        var name := e.name;
        if e.service != "" {
          name := e.name + " (" + e.service + ")";
        }
        infos := infos + [ContainerInfo(id, name, e.image, "", e.status, e.state)];
      }
    }
    assert opts == seq(|entries|, k requires 0 <= k < |entries| =>
      if entries[k].id != "" then Some(FromPsEntry(entries[k])) else None);
  }

  /** A command that succeeded with some output. */
  predicate HasOutput(r: CmdResult) {
    r.Ran? && r.output != ""
  }

  /** The outcome of getContainersByComposeCommand: the decoded JSON entries
      when `ps --format json` printed a decodable array; otherwise its output
      parsed as a table if that yields anything; otherwise the table of
      `compose ps`, then of `docker-compose ps`, whichever first printed
      something; otherwise nothing. */
  function ViaComposeCommand(cli: ComposeCli): seq<ContainerInfo> {
    if HasOutput(cli.psJson) && cli.decode(cli.psJson.output).Some? then
      PsEntryRecords(cli.decode(cli.psJson.output).value)
    else if HasOutput(cli.psJson) && PsRecords(OutputLines(cli.psJson.output)) != [] then
      PsRecords(OutputLines(cli.psJson.output))
    else if HasOutput(cli.psText) then PsRecords(OutputLines(cli.psText.output))
    else if HasOutput(cli.legacyPs) then PsRecords(OutputLines(cli.legacyPs.output))
    else []
  }

  /** getContainersByComposeCommand. */
  method ContainersByComposeCommand(cli: ComposeCli) returns (infos: seq<ContainerInfo>)
    ensures infos == ViaComposeCommand(cli)
  {
    infos := [];
    if HasOutput(cli.psJson) {
      var decoded := cli.decode(cli.psJson.output);
      if decoded.Some? {
        infos := ContainersFromPsEntries(decoded.value);
        return;
      }
      infos := ParsePsText(cli.psJson.output);
      if |infos| > 0 {
        return;
      }
    }
    if HasOutput(cli.psText) {
      infos := ParsePsText(cli.psText.output);
      return;
    }
    if HasOutput(cli.legacyPs) {
      infos := ParsePsText(cli.legacyPs.output);
      return;
    }
  }

  // ---------------------------------------------------------------------
  // The chain

  /** addTestContainers: the two fixed containers returned for "test". */
  function TestContainers(project: string): (cs: seq<ContainerInfo>)
    ensures |cs| == 2
  {
    [ ContainerInfo("test1234567", project + "_mongodb_1 (mongodb)", "mongo:latest", "mongod", "Up 2 hours", "running"),
      ContainerInfo("test7654321", project + "_api_1 (api)", project + "/api:latest", "node server.js", "Up 2 hours", "running") ]
  }

  /** The first non-empty sequence, or none. */
  function FirstNonEmpty<T(==)>(xss: seq<seq<T>>): seq<T> {
    if xss == [] then []
    else if xss[0] != [] then xss[0]
    else FirstNonEmpty(xss[1..])
  }

  /** FirstNonEmpty is empty exactly when every sequence is, and otherwise is
      the earliest non-empty one. */
  lemma {:induction false} FirstNonEmptyIsFirst<T>(xss: seq<seq<T>>)
    ensures FirstNonEmpty(xss) == [] <==> forall k :: 0 <= k < |xss| ==> xss[k] == []
    ensures FirstNonEmpty(xss) != [] ==>
              exists k | 0 <= k < |xss| :: FirstNonEmpty(xss) == xss[k] && forall j :: 0 <= j < k ==> xss[j] == []
  {
    if xss != [] && xss[0] == [] {
      var tail := xss[1..];
      FirstNonEmptyIsFirst(tail);
      assert forall k :: 1 <= k < |xss| ==> xss[k] == tail[k - 1];
      if FirstNonEmpty(tail) != [] {
        var k :| 0 <= k < |tail| && FirstNonEmpty(tail) == tail[k] && forall j :: 0 <= j < k ==> tail[j] == [];
        assert FirstNonEmpty(xss) == xss[k + 1] && forall j :: 0 <= j < k + 1 ==> xss[j] == [];
      }
    }
  }

  lemma {:induction false} FirstNonEmptySnoc<T>(xss: seq<seq<T>>, xs: seq<T>)
    ensures FirstNonEmpty(xss + [xs]) == if FirstNonEmpty(xss) != [] then FirstNonEmpty(xss) else xs
  {
    if xss != [] {
      assert (xss + [xs])[1..] == xss[1..] + [xs];
      FirstNonEmptySnoc(xss[1..], xs);
    } else {
      assert [] + [xs] == [xs];
      assert [xs][1..] == [];
    }
  }

  /** The project name with `_` replaced by `-`. */
  function DashName(project: string): string {
    ReplaceChar(project, '_', '-')
  }

  /** The real strategies in the order they are tried: the label lookup
      for the name, for its dashed form and for its lowercase form (each of
      the last two only when it differs from the name), then the compose
      CLI. */
  function RealAttempts(project: string, byLabel: string -> Result<seq<ApiContainer>, string>, cli: ComposeCli)
    : seq<seq<ContainerInfo>>
    requires LabelListingWellFormed(byLabel)
  {
    LabelAttempts(project, byLabel) + [ViaComposeCommand(cli)]
  }

  /** The three label lookups. */
  function LabelAttempts(project: string, byLabel: string -> Result<seq<ApiContainer>, string>)
    : seq<seq<ContainerInfo>>
    requires LabelListingWellFormed(byLabel)
  {
    [ByLabel(project, byLabel)]
    + (if DashName(project) != project then [ByLabel(DashName(project), byLabel)] else [])
    + (if ToLower(project) != project then [ByLabel(ToLower(project), byLabel)] else [])
  }

  /** Every strategy, the test containers last for the name "test". */
  function Attempts(project: string, byLabel: string -> Result<seq<ApiContainer>, string>, cli: ComposeCli)
    : seq<seq<ContainerInfo>>
    requires LabelListingWellFormed(byLabel)
  {
    RealAttempts(project, byLabel, cli) + (if project == "test" then [TestContainers(project)] else [])
  }

  /** ListComposeContainers: each strategy is tried only while everything
      before it found nothing, so the result is the first non-empty attempt;
      an empty name is the only error. */
  method ListComposeContainers(project: string, byLabel: string -> Result<seq<ApiContainer>, string>, cli: ComposeCli)
    returns (r: Result<seq<ContainerInfo>, string>)
    requires LabelListingWellFormed(byLabel)
    ensures project == "" <==> r.Failure?
    ensures project == "" ==> r == Failure("no project name provided")
    ensures project != "" ==> r == Success(FirstNonEmpty(Attempts(project, byLabel, cli)))
  {
    if project == "" {
      return Failure("no project name provided");
    }
    var containers := LabelLookups(project, byLabel);
    FirstNonEmptySnoc(LabelAttempts(project, byLabel), ViaComposeCommand(cli));
    if |containers| == 0 {
      containers := ContainersByComposeCommand(cli);
    }
    if |containers| == 0 && project == "test" {
      containers := TestContainers(project);
    }
    TestDataOnlyAsLastResort(project, byLabel, cli);
    return Success(containers);
  }

  /** The label lookups of ListComposeContainers: the name, then its dashed
      and its lowercase forms, each only while nothing was found and only
      when it differs from the name. */
  method LabelLookups(project: string, byLabel: string -> Result<seq<ApiContainer>, string>)
    returns (containers: seq<ContainerInfo>)
    requires LabelListingWellFormed(byLabel)
    ensures containers == FirstNonEmpty(LabelAttempts(project, byLabel))
  {
    ghost var done := [ByLabel(project, byLabel)];
    containers := ContainersByProjectName(project, byLabel);
    if |containers| == 0 {
      var alt := ReplaceChar(project, '_', '-');
      if alt != project {
        containers := ContainersByProjectName(alt, byLabel);
      }
    }
    if DashName(project) != project {
      FirstNonEmptySnoc(done, ByLabel(DashName(project), byLabel));
      done := done + [ByLabel(DashName(project), byLabel)];
    }
    assert containers == FirstNonEmpty(done);
    if |containers| == 0 {
      var normalized := ToLower(project);
      if normalized != project {
        containers := ContainersByProjectName(normalized, byLabel);
      }
    }
    if ToLower(project) != project {
      FirstNonEmptySnoc(done, ByLabel(ToLower(project), byLabel));
      done := done + [ByLabel(ToLower(project), byLabel)];
    }
    assert done == LabelAttempts(project, byLabel);
  }

  /** The test containers are returned exactly when the name is "test" and
      every real strategy found nothing; otherwise the result is that of the
      real strategies. */
  lemma TestDataOnlyAsLastResort(project: string, byLabel: string -> Result<seq<ApiContainer>, string>, cli: ComposeCli)
    requires LabelListingWellFormed(byLabel)
    ensures var strategies := FirstNonEmpty(RealAttempts(project, byLabel, cli));
            FirstNonEmpty(Attempts(project, byLabel, cli)) ==
              if strategies == [] && project == "test" then TestContainers(project) else strategies
  {
    var attempts := RealAttempts(project, byLabel, cli);
    if project == "test" {
      FirstNonEmptySnoc(attempts, TestContainers(project));
    } else {
      assert Attempts(project, byLabel, cli) == attempts;
    }
  }

  /** The compose CLI path shortens every ID to at most 12 characters. */
  lemma ViaComposeCommandShortIds(cli: ComposeCli)
    ensures forall c :: c in ViaComposeCommand(cli) ==> |c.id| <= 12
  {
    if HasOutput(cli.psJson) && cli.decode(cli.psJson.output).Some? {
      PsEntryRecordsProperties(cli.decode(cli.psJson.output).value);
    } else {
      if HasOutput(cli.psJson) {
        PsRecordsFromLines(OutputLines(cli.psJson.output));
      }
      if HasOutput(cli.psText) {
        PsRecordsFromLines(OutputLines(cli.psText.output));
      }
      if HasOutput(cli.legacyPs) {
        PsRecordsFromLines(OutputLines(cli.legacyPs.output));
      }
    }
  }
}
