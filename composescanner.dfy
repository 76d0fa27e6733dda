/** The indentation-driven compose-file scanner of ComposeInspect
    (internal/ui/views/compose.go): pass 1 finds the direct children of the
    `services:` key, pass 2 re-reads the file once per service for its
    `image:` value and its port list items.  Each pass is a loop over the
    lines, proved against a step function over the same state the Go loop
    keeps. */
module ComposeScanner {
  import opened GoStrings
  import opened DockerTypes

  // ---------------------------------------------------------------------
  // Lines and indentation

  /** Width of the leading blanks: a space counts 1, a tab 4. */
  function Indent(line: string): nat {
    if line == [] then 0
    else if line[0] == ' ' then 1 + Indent(line[1..])
    else if line[0] == '\t' then 4 + Indent(line[1..])
    else 0
  }

  /** Number of leading spaces and tabs. */
  function LeadLength(line: string): (k: nat)
    ensures k <= |line|
    ensures forall j :: 0 <= j < k ==> line[j] == ' ' || line[j] == '\t'
    ensures k < |line| ==> line[k] != ' ' && line[k] != '\t'
  {
    if line != [] && (line[0] == ' ' || line[0] == '\t') then 1 + LeadLength(line[1..]) else 0
  }

  /** The indentation is the number of leading spaces plus four times the
      number of leading tabs, counted up to the first other character. */
  lemma {:induction false} IndentCountsBlanks(line: string)
    ensures Indent(line) ==
      multiset(line[..LeadLength(line)])[' '] + 4 * multiset(line[..LeadLength(line)])['\t']
  {
    var k := LeadLength(line);
    if k > 0 {
      var rest := line[1..];
      IndentCountsBlanks(rest);
      assert LeadLength(rest) == k - 1;
      assert line[..k] == [line[0]] + rest[..k - 1];
      assert multiset(line[..k]) == multiset{line[0]} + multiset(rest[..k - 1]);
    }
  }

  /** The indentation loop of both passes. */
  method IndentOf(line: string) returns (indent: nat)
    ensures indent == Indent(line)
  {
    indent := 0;
    var i := 0;
    while i < |line|
      invariant 0 <= i <= |line|
      invariant indent + Indent(line[i..]) == Indent(line)
    {
      assert line[i..][1..] == line[i + 1..];
      if line[i] == ' ' {
        indent := indent + 1;
      } else if line[i] == '\t' {
        indent := indent + 4;
      } else {
        break;
      }
      i := i + 1;
    }
  }

  /** Blank lines and `#` comments are skipped by both passes. */
  predicate Skipped(line: string) {
    var trimmed := TrimSpace(line);
    trimmed == "" || HasPrefix(trimmed, "#")
  }

  // ---------------------------------------------------------------------
  // Pass 1: names of the services

  /** What pass 1 looks at in a line. */
  datatype EntryView = EntryView(skipped: bool, header: bool, indent: nat, endsWithColon: bool, name: string)

  function ViewForNames(line: string): EntryView {
    var trimmed := TrimSpace(line);
    EntryView(Skipped(line), HasPrefix(trimmed, "services:"), Indent(line),
              HasSuffix(trimmed, ":"), TrimSuffix(trimmed, ":"))
  }

  function ViewsForNames(lines: seq<string>): (views: seq<EntryView>)
    ensures |views| == |lines| && forall i :: 0 <= i < |lines| ==> views[i] == ViewForNames(lines[i])
  {
    seq(|lines|, i requires 0 <= i < |lines| => ViewForNames(lines[i]))
  }

  datatype Pass1 = Pass1(inServices: bool, servicesIndent: nat, names: set<string>)

  const Pass1Start := Pass1(false, 0, {})

  /** A line that pass 1 records as a service, given the state before it. */
  predicate IsServiceEntry(st: Pass1, v: EntryView) {
    !v.skipped && !v.header && st.inServices && v.indent == st.servicesIndent + 2 && v.endsWithColon
  }

  /** One iteration of pass 1: a skipped line changes nothing, a `services:`
      line opens the section, any other line at most as deep as the header
      closes it, and a service entry inside it adds its name. */
  function Step1(st: Pass1, v: EntryView): (r: Pass1)
    ensures v.skipped ==> r == st
    ensures !v.skipped && !v.header && v.indent <= st.servicesIndent ==> !r.inServices
    ensures r.names == if IsServiceEntry(st, v) then st.names + {v.name} else st.names
  {
    if v.skipped then st
    else if v.header then st.(inServices := true, servicesIndent := v.indent)
    else if !st.inServices || v.indent <= st.servicesIndent then
      if v.indent <= st.servicesIndent then st.(inServices := false) else st
    else if v.indent == st.servicesIndent + 2 && v.endsWithColon then st.(names := st.names + {v.name})
    else st
  }

  /** State of pass 1 after the first `k` lines. */
  function States1(views: seq<EntryView>, k: nat): Pass1
    requires k <= |views|
  {
    if k == 0 then Pass1Start else Step1(States1(views, k - 1), views[k - 1])
  }

  function ServiceNames(lines: seq<string>): set<string> {
    var views := ViewsForNames(lines);
    States1(views, |views|).names
  }

  predicate EntryAt(views: seq<EntryView>, i: nat)
    requires i < |views|
  {
    IsServiceEntry(States1(views, i), views[i])
  }

  /** A name is recorded exactly when some line inside the `services:` section,
      indented two more than the header and ending in ':', declares it. */
  lemma {:induction false} ServiceNameRecordedIff(views: seq<EntryView>, k: nat, n: string)
    requires k <= |views|
    ensures n in States1(views, k).names <==>
              exists i :: 0 <= i < k && EntryAt(views, i) && views[i].name == n
  {
    if k > 0 {
      ServiceNameRecordedIff(views, k - 1, n);
      var st := States1(views, k - 1);
      assert States1(views, k) == Step1(st, views[k - 1]);
      assert EntryAt(views, k - 1) == IsServiceEntry(st, views[k - 1]);
      if n in States1(views, k).names {
        if n in st.names {
          var i :| 0 <= i < k - 1 && EntryAt(views, i) && views[i].name == n;
          assert 0 <= i < k;
        } else {
          assert EntryAt(views, k - 1) && views[k - 1].name == n;
        }
      } else {
        forall i | 0 <= i < k && EntryAt(views, i) ensures views[i].name != n {
          if i < k - 1 {
            assert n !in st.names;
          }
        }
      }
    }
  }

  /** Pass 1 of the scanner, over the lines as ViewForNames sees them. */
  method ScanServiceNames(views: seq<EntryView>) returns (names: set<string>)
    ensures names == States1(views, |views|).names
  {
    var inServices := false;
    var servicesIndent: nat := 0;
    names := {};
    for k := 0 to |views|
      invariant States1(views, k) == Pass1(inServices, servicesIndent, names)
    {
      var v := views[k];
      if v.skipped {
        // blank line or comment
      } else if v.header {
        inServices := true;
        servicesIndent := v.indent;
      } else if !inServices || v.indent <= servicesIndent {
        if v.indent <= servicesIndent {
          inServices := false;
        }
      } else if v.indent == servicesIndent + 2 && v.endsWithColon {
        names := names + {v.name};
      }
    }
  }

  // ---------------------------------------------------------------------
  // Pass 2: image and ports of one service

  /** What pass 2 looks at in a line, when scanning for service `name`. */
  datatype PropertyView = PropertyView(
    skipped: bool, opensService: bool, indent: nat,
    imageKey: bool, image: string, listItem: bool, mentionsPort: bool, port: string)

  function ViewForService(name: string, line: string): PropertyView {
    var trimmed := TrimSpace(line);
    PropertyView(Skipped(line), HasPrefix(trimmed, name + ":"), Indent(line),
                 HasPrefix(trimmed, "image:"), TrimSpace(TrimPrefix(trimmed, "image:")),
                 HasPrefix(trimmed, "- "), Contains(ToLower(line), "port"), TrimSpace(TrimPrefix(trimmed, "- ")))
  }

  function ViewsForService(name: string, lines: seq<string>): (views: seq<PropertyView>)
    ensures |views| == |lines| && forall i :: 0 <= i < |lines| ==> views[i] == ViewForService(name, lines[i])
  {
    seq(|lines|, i requires 0 <= i < |lines| => ViewForService(name, lines[i]))
  }

  datatype Pass2 = Pass2(inServiceDef: bool, serviceIndent: nat, image: string, ports: seq<string>)

  const Pass2Start := Pass2(false, 0, "", [])

  /** A line of the service block that sets the image. */
  predicate IsImageLine(st: Pass2, v: PropertyView) {
    !v.skipped && st.inServiceDef && v.indent == st.serviceIndent + 2 && v.imageKey
  }

  /** A line of the service block that adds a port: deeper than the
      properties, a `- ` list item, and mentioning "port" itself. */
  predicate IsPortLine(st: Pass2, v: PropertyView) {
    !v.skipped && st.inServiceDef && v.indent > st.serviceIndent + 2 && v.listItem && v.mentionsPort
  }

  /** One iteration of pass 2: a skipped line changes nothing, the first
      `name:` line opens the service block, a line at most as deep as it
      closes the block, and inside it image lines and port lines update the
      record. */
  function Step2(st: Pass2, v: PropertyView): (r: Pass2)
    ensures v.skipped ==> r == st
    ensures r.image == if IsImageLine(st, v) then v.image else st.image
    ensures r.ports == if IsPortLine(st, v) then st.ports + [v.port] else st.ports
  {
    if v.skipped then st
    else if !st.inServiceDef && v.opensService then st.(inServiceDef := true, serviceIndent := v.indent)
    else if !st.inServiceDef then st
    else if v.indent <= st.serviceIndent then st.(inServiceDef := false)
    else if v.indent == st.serviceIndent + 2 then
      if v.imageKey then st.(image := v.image) else st
    else if v.indent > st.serviceIndent + 2 && v.listItem && v.mentionsPort then st.(ports := st.ports + [v.port])
    else st
  }

  function States2(views: seq<PropertyView>, k: nat): Pass2
    requires k <= |views|
  {
    if k == 0 then Pass2Start else Step2(States2(views, k - 1), views[k - 1])
  }

  /** The record pass 2 produces for service `name` from the viewed lines. */
  function RecordOf(name: string, views: seq<PropertyView>): ComposeServiceInfo {
    var st := States2(views, |views|);
    ComposeServiceInfo(name, "", st.image, st.ports, [])
  }

  function ServiceRecord(lines: seq<string>, name: string): ComposeServiceInfo {
    RecordOf(name, ViewsForService(name, lines))
  }

  predicate ImageLineAt(views: seq<PropertyView>, i: nat)
    requires i < |views|
  {
    IsImageLine(States2(views, i), views[i])
  }

  predicate PortLineAt(views: seq<PropertyView>, i: nat)
    requires i < |views|
  {
    IsPortLine(States2(views, i), views[i])
  }

  /** Without an `image:` line in the service block the image stays empty. */
  lemma {:induction false} NoImageLineNoImage(views: seq<PropertyView>, k: nat)
    requires k <= |views|
    requires forall i :: 0 <= i < k ==> !ImageLineAt(views, i)
    ensures States2(views, k).image == ""
  {
    if k > 0 {
      NoImageLineNoImage(views, k - 1);
      assert !ImageLineAt(views, k - 1);
    }
  }

  /** The image is the value of the last `image:` line of the service block. */
  lemma {:induction false} ImageIsLastImageLine(views: seq<PropertyView>, i: nat, k: nat)
    requires i < k <= |views|
    requires ImageLineAt(views, i)
    requires forall j :: i < j < k ==> !ImageLineAt(views, j)
    ensures States2(views, k).image == views[i].image
  {
    if k > i + 1 {
      ImageIsLastImageLine(views, i, k - 1);
      assert !ImageLineAt(views, k - 1);
    }
  }

  /** A value is among the ports exactly when some qualifying list-item line
      of the service block carries it. */
  lemma {:induction false} PortsComeFromPortLines(views: seq<PropertyView>, k: nat, p: string)
    requires k <= |views|
    ensures p in States2(views, k).ports <==> exists i :: 0 <= i < k && PortLineAt(views, i) && views[i].port == p
  {
    if k > 0 {
      PortsComeFromPortLines(views, k - 1, p);
      var st := States2(views, k - 1);
      assert States2(views, k) == Step2(st, views[k - 1]);
      assert PortLineAt(views, k - 1) == IsPortLine(st, views[k - 1]);
      if p in States2(views, k).ports {
        if p in st.ports {
          var i :| 0 <= i < k - 1 && PortLineAt(views, i) && views[i].port == p;
          assert 0 <= i < k;
        } else {
          assert PortLineAt(views, k - 1) && views[k - 1].port == p;
        }
      } else {
        forall i | 0 <= i < k && PortLineAt(views, i) ensures views[i].port != p {
          if i < k - 1 {
            assert p !in st.ports;
          }
        }
      }
    }
  }

  /** Pass 2 of the scanner for one service, over the lines as
      ViewForService sees them. */
  method ScanService(views: seq<PropertyView>, name: string) returns (service: ComposeServiceInfo)
    ensures service == RecordOf(name, views)
  {
    service := ServiceInfoNamed(name);
    var inServiceDef := false;
    var serviceIndent: nat := 0;
    for k := 0 to |views|
      invariant States2(views, k) == Pass2(inServiceDef, serviceIndent, service.image, service.ports)
      invariant service.name == name && service.status == "" && service.containers == []
    {
      var v := views[k];
      if v.skipped {
        // blank line or comment
      } else if !inServiceDef && v.opensService {
        inServiceDef := true;
        serviceIndent := v.indent;
      } else if !inServiceDef {
        // not in this service's block
      } else if v.indent <= serviceIndent {
        inServiceDef := false;
      } else if v.indent == serviceIndent + 2 {
        if v.imageKey {
          service := service.(image := v.image);
        }
      } else if v.indent > serviceIndent + 2 {
        if v.listItem && v.mentionsPort {
          service := service.(ports := service.ports + [v.port]);
        }
      }
    }
  }

  // ---------------------------------------------------------------------
  // The scanner as ComposeInspect runs it

  function Lines(content: string): seq<string> {
    Split(content, "\n")
  }

  /** `services` holds exactly one record per name of `names`, the one
      `record` gives for it.  The Go map of names has no order, so the order
      of the records is left open. */
  predicate OneRecordPerName(names: set<string>, record: string -> ComposeServiceInfo,
                             services: seq<ComposeServiceInfo>) {
    && |services| == |names|
    && (forall k :: 0 <= k < |services| ==> services[k].name in names && services[k] == record(services[k].name))
    && (forall n :: n in names ==> exists k :: 0 <= k < |services| && services[k].name == n)
    && (forall j, k :: 0 <= j < k < |services| ==> services[j].name != services[k].name)
  }

  /** The services the scanner finds in a list of lines: one per name of
      pass 1, as pass 2 builds it. */
  predicate ScannedServices(lines: seq<string>, services: seq<ComposeServiceInfo>) {
    OneRecordPerName(ServiceNames(lines), n => ServiceRecord(lines, n), services)
  }

  /** Every record so far is that of a name already taken out of `remaining`. */
  predicate RecordsOfDone(done: set<string>, record: string -> ComposeServiceInfo, services: seq<ComposeServiceInfo>) {
    forall k :: 0 <= k < |services| ==> services[k].name in done && services[k] == record(services[k].name)
  }

  /** Every name already taken out of `remaining` has a record. */
  predicate DoneCovered(done: set<string>, services: seq<ComposeServiceInfo>) {
    forall n :: n in done ==> exists k :: 0 <= k < |services| && services[k].name == n
  }

  predicate DistinctNames(services: seq<ComposeServiceInfo>) {
    forall j, k :: 0 <= j < k < |services| ==> services[j].name != services[k].name
  }

  /** Loop invariant of the second pass: the records so far are those of
      the names already taken out of `remaining`, one each. */
  predicate Collected(names: set<string>, remaining: set<string>, record: string -> ComposeServiceInfo,
                      services: seq<ComposeServiceInfo>) {
    && remaining <= names
    && |services| + |remaining| == |names|
    && RecordsOfDone(names - remaining, record, services)
    && DoneCovered(names - remaining, services)
    && DistinctNames(services)
  }

  lemma RecordsOfDoneStep(done: set<string>, record: string -> ComposeServiceInfo,
                          services: seq<ComposeServiceInfo>, name: string)
    requires RecordsOfDone(done, record, services) && record(name).name == name
    ensures RecordsOfDone(done + {name}, record, services + [record(name)])
  {
    var after := services + [record(name)];
    forall k | 0 <= k < |after|
      ensures after[k].name in done + {name} && after[k] == record(after[k].name)
    {
      if k < |services| {
        assert after[k] == services[k];
      }
    }
  }

  lemma DoneCoveredStep(done: set<string>, services: seq<ComposeServiceInfo>, r: ComposeServiceInfo)
    requires DoneCovered(done, services)
    ensures DoneCovered(done + {r.name}, services + [r])
  {
    var after := services + [r];
    forall n | n in done + {r.name} ensures exists k :: 0 <= k < |after| && after[k].name == n {
      if n == r.name {
        assert after[|services|].name == n;
      } else {
        var k :| 0 <= k < |services| && services[k].name == n;
        assert after[k].name == n;
      }
    }
  }

  lemma DistinctNamesStep(done: set<string>, services: seq<ComposeServiceInfo>, r: ComposeServiceInfo)
    requires DistinctNames(services) && r.name !in done
    requires forall k :: 0 <= k < |services| ==> services[k].name in done
    ensures DistinctNames(services + [r])
  {
  }

  lemma CollectedStep(names: set<string>, remaining: set<string>, record: string -> ComposeServiceInfo,
                      services: seq<ComposeServiceInfo>, name: string)
    requires Collected(names, remaining, record, services) && name in remaining
    requires record(name).name == name
    ensures Collected(names, remaining - {name}, record, services + [record(name)])
  {
    var done := names - remaining;
    assert names - (remaining - {name}) == done + {name};
    RecordsOfDoneStep(done, record, services, name);
    DoneCoveredStep(done, services, record(name));
    DistinctNamesStep(done, services, record(name));
  }

  lemma CollectedAll(names: set<string>, record: string -> ComposeServiceInfo, services: seq<ComposeServiceInfo>)
    requires Collected(names, {}, record, services)
    ensures OneRecordPerName(names, record, services)
  {
    assert names - {} == names;
  }

  /** Both passes over the lines of a compose file. */
  method ScanLines(lines: seq<string>) returns (services: seq<ComposeServiceInfo>)
    ensures ScannedServices(lines, services)
  {
    ghost var record := n => ServiceRecord(lines, n);
    var names := ScanServiceNames(ViewsForNames(lines));
    var remaining := names;
    services := [];
    while remaining != {}
      invariant Collected(names, remaining, record, services)
      decreases |remaining|
    {
      var name :| name in remaining;
      var service := ScanService(ViewsForService(name, lines), name);
      assert service == record(name);
      CollectedStep(names, remaining, record, services, name);
      services := services + [service];
      remaining := remaining - {name};
    }
    CollectedAll(names, record, services);
  }

  /** The scan runs only for a non-empty file when no services were supplied,
      and then yields one record per service name of its lines. */
  method ScanComposeServices(content: string, supplied: seq<ComposeServiceInfo>)
    returns (services: seq<ComposeServiceInfo>)
    ensures !(content != "" && |supplied| == 0) ==> services == supplied
    ensures content != "" && |supplied| == 0 ==> ScannedServices(Lines(content), services)
  {
    services := supplied;
    if content != "" && |supplied| == 0 {
      var lines := Split(content, "\n");
      services := ScanLines(lines);
    }
  }
}
