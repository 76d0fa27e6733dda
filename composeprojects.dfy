/** ListComposeProjects in internal/docker/service.go: the decode ladder over
    `compose ls --format json`, the merge with projects found through
    compose files on disk, and the de-duplication by name and path.  The
    JSON decoders, the discovered projects and the outputs the path finder
    reads are inputs. */
module ComposeProjects {
  import opened Wrappers
  import opened GoStrings
  import opened DockerTypes
  import opened ComposeParse

  /** Where the path finder of a project looks: the `working_dir` string of
      `compose config` for a project name, and the `compose ls -a` output. */
  datatype PathSources = PathSources(workingDirOf: string -> Option<string>, listing: Option<string>)

  /** A project with an empty path gets the one findComposeProjectPath
      settles on; any other project is kept as it is. */
  function Fill(p: ComposeInfo, src: PathSources): (q: ComposeInfo)
    ensures q.path != []
    ensures q.name == p.name && q.services == p.services && q.status == p.status && q.configFiles == p.configFiles
    ensures p.path != [] ==> q == p
  {
    if p.path == "" then p.(path := ProjectPath(p.name, src.workingDirOf(p.name), src.listing)) else p
  }

  // ---------------------------------------------------------------------
  // The decode ladder

  /** The projects read from `compose ls` output: a JSON array if it decodes;
      otherwise a single JSON object with a non-empty name, its path filled
      in; otherwise whatever the line parser finds. */
  function Decoded(out: string, decodeArray: string -> Option<seq<ComposeInfo>>,
                   decodeObject: string -> Option<ComposeInfo>, src: PathSources): seq<ComposeInfo>
  {
    match decodeArray(out)
    case Some(projects) => projects
    case None =>
      match decodeObject(out)
      case Some(p) => if p.name != "" then [Fill(p, src)] else ManualRecords(OutputLines(out))
      case None => ManualRecords(OutputLines(out))
  }

  method DecodeLadder(out: string, decodeArray: string -> Option<seq<ComposeInfo>>,
                      decodeObject: string -> Option<ComposeInfo>, src: PathSources)
    returns (projects: seq<ComposeInfo>)
    ensures projects == Decoded(out, decodeArray, decodeObject, src)
  {
    var asArray := decodeArray(out);
    if asArray.Some? {
      return asArray.value;
    }
    var single := decodeObject(out);
    if single.Some? && single.value.name != "" {
      var p := single.value;
      if p.path == "" {
        var path := FindProjectPath(p.name, src.workingDirOf(p.name), src.listing);
        p := p.(path := path);
      }
      return [p];
    }
    var manual := ParseManual(out);
    projects := AppendAll([], manual);
  }

  /** Appends the projects one by one, as the manual-parse branch does. */
  method AppendAll(projects: seq<ComposeInfo>, more: seq<ComposeInfo>) returns (all: seq<ComposeInfo>)
    ensures all == projects + more
  {
    all := projects;
    for k := 0 to |more|
      invariant all == projects + more[..k]
    {
      all := all + [more[k]];
      assert more[..k + 1] == more[..k] + [more[k]];
    }
    assert more[..|more|] == more;
  }

  // ---------------------------------------------------------------------
  // Merging the projects found on disk

  predicate HasName(projects: seq<ComposeInfo>, name: string) {
    exists i | 0 <= i < |projects| :: projects[i].name == name
  }

  /** The inner search of the merge loop. */
  method FindName(projects: seq<ComposeInfo>, name: string) returns (found: bool)
    ensures found == HasName(projects, name)
  {
    found := false;
    for i := 0 to |projects|
      invariant forall j :: 0 <= j < i ==> projects[j].name != name
    {
      if projects[i].name == name {
        found := true;
        break;
      }
    }
  }

  /** The projects after the first `|extra|` discovered ones were merged in:
      each is appended when no project so far, one merged earlier included,
      has its name. */
  function Merged(projects: seq<ComposeInfo>, extra: seq<ComposeInfo>): seq<ComposeInfo>
    decreases |extra|
  {
    if extra == [] then projects
    else
      var before := Merged(projects, extra[..|extra| - 1]);
      var cp := extra[|extra| - 1];
      if HasName(before, cp.name) then before else before + [cp]
  }

  /** The merge keeps the decoded projects as a prefix; everything after
      them is a discovered project whose name no earlier entry has; and
      every discovered project's name ends up present. */
  lemma {:induction false} MergedProperties(projects: seq<ComposeInfo>, extra: seq<ComposeInfo>)
    ensures var m := Merged(projects, extra);
            && |projects| <= |m| && m[..|projects|] == projects
            && (forall i :: |projects| <= i < |m| ==> m[i] in extra && forall j :: 0 <= j < i ==> m[j].name != m[i].name)
            && (forall cp :: cp in extra ==> HasName(m, cp.name))
    decreases |extra|
  {
    if extra != [] {
      var init := extra[..|extra| - 1];
      MergedProperties(projects, init);
      var before := Merged(projects, init);
      var cp := extra[|extra| - 1];
      var m := Merged(projects, extra);
      forall e | e in extra
        ensures HasName(m, e.name)
      {
        if e in init {
          var i :| 0 <= i < |before| && before[i].name == e.name;
          assert m[i] == before[i];
        } else {
          assert e == cp;
          if !HasName(before, cp.name) {
            assert m[|m| - 1] == cp;
          }
        }
      }
      forall i | |projects| <= i < |m|
        ensures m[i] in extra && forall j :: 0 <= j < i ==> m[j].name != m[i].name
      {
        if i < |before| {
          assert m[i] == before[i];
          assert forall j :: 0 <= j < i ==> m[j] == before[j];
        } else {
          assert m[i] == cp;
          assert forall j :: 0 <= j < i ==> m[j] == before[j];
        }
      }
      assert m[..|projects|] == before[..|projects|];
    }
  }

  /** The merge loop of ListComposeProjects. */
  method MergeDiscovered(projects: seq<ComposeInfo>, extra: seq<ComposeInfo>) returns (merged: seq<ComposeInfo>)
    ensures merged == Merged(projects, extra)
  {
    merged := projects;
    for k := 0 to |extra|
      invariant merged == Merged(projects, extra[..k])
    {
      var cp := extra[k];
      assert extra[..k + 1][..k] == extra[..k];
      var found := FindName(merged, cp.name);
      if !found {
        merged := merged + [cp];
      }
    }
    assert extra[..|extra|] == extra;
  }

  // ---------------------------------------------------------------------
  // De-duplication

  /** The de-duplication key, taken before any path is filled in. */
  function Key(p: ComposeInfo): string {
    p.name + ":" + p.path
  }

  function KeySet(projects: seq<ComposeInfo>): set<string> {
    set i | 0 <= i < |projects| :: Key(projects[i])
  }

  /** The projects whose key did not occur earlier, in their original order. */
  function Kept(projects: seq<ComposeInfo>): seq<ComposeInfo> {
    if projects == [] then []
    else
      var init := projects[..|projects| - 1];
      var p := projects[|projects| - 1];
      if Key(p) in KeySet(init) then Kept(init) else Kept(init) + [p]
  }

  lemma KeySetSnoc(projects: seq<ComposeInfo>, p: ComposeInfo)
    ensures KeySet(projects + [p]) == KeySet(projects) + {Key(p)}
  {
    var ps := projects + [p];
    forall key | key in KeySet(ps)
      ensures key in KeySet(projects) + {Key(p)}
    {
      var i :| 0 <= i < |ps| && Key(ps[i]) == key;
      if i < |projects| {
        assert ps[i] == projects[i];
      }
    }
    forall key | key in KeySet(projects) ensures key in KeySet(ps) {
      var i :| 0 <= i < |projects| && Key(projects[i]) == key;
      assert ps[i] == projects[i];
    }
    assert Key(ps[|projects|]) == Key(p);
  }

  /** The kept projects have pairwise different keys and cover every key of
      the input; each is the first project with its key. */
  lemma {:induction false} KeptProperties(projects: seq<ComposeInfo>)
    ensures var kept := Kept(projects);
            && (forall i, j :: 0 <= i < j < |kept| ==> Key(kept[i]) != Key(kept[j]))
            && KeySet(kept) == KeySet(projects)
            && (forall i :: 0 <= i < |kept| ==>
                  exists j | 0 <= j < |projects| :: projects[j] == kept[i] && Key(kept[i]) !in KeySet(projects[..j]))
  {
    if projects != [] {
      var init := projects[..|projects| - 1];
      var p := projects[|projects| - 1];
      KeptProperties(init);
      assert projects == init + [p];
      KeySetSnoc(init, p);
      var kept := Kept(projects);
      if Key(p) !in KeySet(init) {
        KeySetSnoc(Kept(init), p);
        forall i, j | 0 <= i < j < |kept|
          ensures Key(kept[i]) != Key(kept[j])
        {
          if j == |kept| - 1 {
            assert kept[i] == Kept(init)[i];
            assert Key(kept[i]) in KeySet(Kept(init));
          } else {
            assert kept[i] == Kept(init)[i] && kept[j] == Kept(init)[j];
          }
        }
      }
      forall i | 0 <= i < |kept|
        ensures exists j | 0 <= j < |projects| :: projects[j] == kept[i] && Key(kept[i]) !in KeySet(projects[..j])
      {
        if i < |Kept(init)| {
          assert kept[i] == Kept(init)[i];
          var j :| 0 <= j < |init| && init[j] == kept[i] && Key(kept[i]) !in KeySet(init[..j]);
          assert projects[..j] == init[..j];
          assert projects[j] == kept[i];
        } else {
          assert kept[i] == p;
          assert projects[..|projects| - 1] == init;
        }
      }
    }
  }

  /** The positions of the projects Kept keeps: those whose key did not occur
      earlier, ascending. */
  function FirstIndices(projects: seq<ComposeInfo>): seq<nat> {
    if projects == [] then []
    else
      var init := projects[..|projects| - 1];
      var p := projects[|projects| - 1];
      if Key(p) in KeySet(init) then FirstIndices(init) else FirstIndices(init) + [|projects| - 1]
  }

  /** A position holding the first project with its key. */
  predicate FirstOccurrence(projects: seq<ComposeInfo>, j: nat) {
    j < |projects| && Key(projects[j]) !in KeySet(projects[..j])
  }

  /** Kept takes exactly the first occurrences of each key, and keeps them in
      their input order: kept[i] is projects[idx[i]] for strictly increasing
      first-occurrence positions idx, and every first occurrence is among them. */
  lemma {:induction false} KeptOrder(projects: seq<ComposeInfo>)
    ensures var idx := FirstIndices(projects);
            var kept := Kept(projects);
            && |idx| == |kept|
            && (forall i :: 0 <= i < |idx| ==> FirstOccurrence(projects, idx[i]) && projects[idx[i]] == kept[i])
            && (forall i, j :: 0 <= i < j < |idx| ==> idx[i] < idx[j])
            && (forall j :: FirstOccurrence(projects, j) ==> j in idx)
  {
    if projects != [] {
      var n := |projects| - 1;
      var init := projects[..n];
      var p := projects[n];
      KeptOrder(init);
      assert projects == init + [p];
      var idx := FirstIndices(projects);
      var kept := Kept(projects);
      forall i | 0 <= i < |FirstIndices(init)|
        ensures FirstOccurrence(projects, FirstIndices(init)[i]) && projects[FirstIndices(init)[i]] == Kept(init)[i]
      {
        var j := FirstIndices(init)[i];
        assert FirstOccurrence(init, j);
        assert projects[..j] == init[..j];
      }
      forall j: nat | FirstOccurrence(projects, j) ensures j in idx {
        if j < n {
          assert projects[..j] == init[..j];
          assert FirstOccurrence(init, j);
        } else {
          assert projects[..n] == init;
        }
      }
      if Key(p) !in KeySet(init) {
        assert projects[..n] == init;
        assert FirstOccurrence(projects, n);
      }
    }
  }

  /** A list whose keys are already distinct is kept whole. */
  lemma {:induction false} KeptDistinct(projects: seq<ComposeInfo>)
    requires forall i, j :: 0 <= i < j < |projects| ==> Key(projects[i]) != Key(projects[j])
    ensures Kept(projects) == projects
  {
    if projects != [] {
      var n := |projects| - 1;
      var init := projects[..n];
      KeptDistinct(init);
      assert Key(projects[n]) !in KeySet(init);
      assert init + [projects[n]] == projects;
    }
  }

  /** De-duplicating twice is the same as once. */
  lemma KeptIdempotent(projects: seq<ComposeInfo>)
    ensures Kept(Kept(projects)) == Kept(projects)
  {
    KeptProperties(projects);
    KeptDistinct(Kept(projects));
  }

  /** Kept projects with their empty paths filled in. */
  function FillAll(projects: seq<ComposeInfo>, src: PathSources): (filled: seq<ComposeInfo>)
    ensures |filled| == |projects|
    ensures forall i :: 0 <= i < |projects| ==> filled[i] == Fill(projects[i], src)
  {
    seq(|projects|, i requires 0 <= i < |projects| => Fill(projects[i], src))
  }

  /** One more project: its key joins the seen keys, and it is kept, filled
      in, exactly when its key was not seen before. */
  lemma DeduplicateStep(projects: seq<ComposeInfo>, k: nat, src: PathSources)
    requires k < |projects|
    ensures KeySet(projects[..k + 1]) == KeySet(projects[..k]) + {Key(projects[k])}
    ensures FillAll(Kept(projects[..k + 1]), src) == FillAll(Kept(projects[..k]), src)
              + (if Key(projects[k]) in KeySet(projects[..k]) then [] else [Fill(projects[k], src)])
  {
    var init, p := projects[..k], projects[k];
    assert projects[..k + 1] == init + [p];
    assert (init + [p])[..|init + [p]| - 1] == init;
    KeySetSnoc(init, p);
    var before := FillAll(Kept(init), src);
    if Key(p) !in KeySet(init) {
      assert FillAll(Kept(init) + [p], src) == before + [Fill(p, src)];
    }
  }

  /** The de-duplication loop: a project is kept when its key was not seen,
      and its path is filled in when empty. */
  method Deduplicate(projects: seq<ComposeInfo>, src: PathSources) returns (unique: seq<ComposeInfo>)
    ensures unique == FillAll(Kept(projects), src)
  {
    var seen: set<string> := {};
    unique := [];
    for k := 0 to |projects|
      invariant seen == KeySet(projects[..k])
      invariant unique == FillAll(Kept(projects[..k]), src)
    {
      var p := projects[k];
      DeduplicateStep(projects, k, src);
      var key := p.name + ":" + p.path;
      if key !in seen {
        seen := seen + {key};
        if p.path == "" {
          var path := FindProjectPath(p.name, src.workingDirOf(p.name), src.listing);
          p := p.(path := path);
        }
        unique := unique + [p];
      }
    }
    assert projects[..|projects|] == projects;
  }

  // ---------------------------------------------------------------------
  // ListComposeProjects

  /** The projects ListComposeProjects returns when `compose ls` ran. */
  function Inventory(out: string, decodeArray: string -> Option<seq<ComposeInfo>>,
                     decodeObject: string -> Option<ComposeInfo>, discovered: seq<ComposeInfo>,
                     src: PathSources): seq<ComposeInfo>
  {
    FillAll(Kept(Merged(Decoded(out, decodeArray, decodeObject, src), discovered)), src)
  }

  /** ListComposeProjects: `compose ls` that exits non-zero or cannot start
      is an error with no fallback; otherwise the decoded projects, merged
      with the discovered ones and de-duplicated. */
  method ListComposeProjects(ls: CmdResult, decodeArray: string -> Option<seq<ComposeInfo>>,
                             decodeObject: string -> Option<ComposeInfo>, discovered: seq<ComposeInfo>,
                             src: PathSources)
    returns (r: Result<seq<ComposeInfo>, string>)
    ensures ls.ExitFailure? ==> r == Failure("failed to list Docker Compose projects")
    ensures ls.StartFailure? ==> r == Failure("failed to execute Docker Compose command")
    ensures ls.Ran? ==> r == Success(Inventory(ls.output, decodeArray, decodeObject, discovered, src))
  {
    if ls.ExitFailure? {
      return Failure("failed to list Docker Compose projects");
    }
    if ls.StartFailure? {
      return Failure("failed to execute Docker Compose command");
    }
    var projects := DecodeLadder(ls.output, decodeArray, decodeObject, src);
    var merged := MergeDiscovered(projects, discovered);
    var unique := Deduplicate(merged, src);
    return Success(unique);
  }

  /** What ListComposeProjects promises on success: every path is non-empty;
      the entries are the first projects of the merge with each pre-fill key,
      one per key, in merge order; every discovered project's name and every
      decoded project's key is represented. */
  lemma InventoryProperties(out: string, decodeArray: string -> Option<seq<ComposeInfo>>,
                            decodeObject: string -> Option<ComposeInfo>, discovered: seq<ComposeInfo>,
                            src: PathSources)
    ensures var merged := Merged(Decoded(out, decodeArray, decodeObject, src), discovered);
            var kept := Kept(merged);
            var result := Inventory(out, decodeArray, decodeObject, discovered, src);
            && |result| == |kept|
            && (forall i :: 0 <= i < |result| ==> result[i].path != [] && result[i] == Fill(kept[i], src))
            && (forall i, j :: 0 <= i < j < |kept| ==> Key(kept[i]) != Key(kept[j]))
            && KeySet(kept) == KeySet(merged)
            && (forall cp :: cp in discovered ==> HasName(merged, cp.name))
            && var idx := FirstIndices(merged);
               && |idx| == |result|
               && (forall i :: 0 <= i < |idx| ==> FirstOccurrence(merged, idx[i]) && result[i] == Fill(merged[idx[i]], src))
               && (forall i, j :: 0 <= i < j < |idx| ==> idx[i] < idx[j])
               && (forall j :: FirstOccurrence(merged, j) ==> j in idx)
  {
    var decoded := Decoded(out, decodeArray, decodeObject, src);
    MergedProperties(decoded, discovered);
    KeptProperties(Merged(decoded, discovered));
    KeptOrder(Merged(decoded, discovered));
  }
}
