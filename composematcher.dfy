/** FetchComposeContainers (internal/ui/views/compose.go): which of the listed
    containers belong to a compose project.  A name/label pass runs first;
    only when it finds nothing does the compose CLI's ID list get
    cross-referenced, and only when that also finds nothing does a
    last-resort pass compare the `_`-separated parts of container names.
    Container inspection and the CLI are inputs: `inspect` gives the string
    labels of a container (None when inspection or decoding fails), and
    `cli` the "ID" entries of `docker compose ps --format json` (None when
    the command fails, prints nothing or is not a JSON array; an entry is
    None when its "ID" is not a string). */
module ComposeMatcher {
  import opened Wrappers
  import opened GoStrings
  import opened DockerTypes

  // ---------------------------------------------------------------------
  // Name variants

  /** The three spellings of a project name that are tried. */
  datatype Variants = Variants(lower: string, dash: string, under: string)

  function Dashed(s: string): string {
    ReplaceChar(s, '_', '-')
  }

  function Underscored(s: string): string {
    ReplaceChar(s, '-', '_')
  }

  /** Lower case, then `_` replaced by `-`, and `-` replaced by `_`. */
  function VariantsOf(project: string): (v: Variants)
    ensures v.lower == ToLower(project)
    ensures |v.dash| == |project| && |v.under| == |project|
    ensures '_' !in v.dash && '-' !in v.under
    ensures forall k :: 0 <= k < |project| ==>
              && v.dash[k] == (if v.lower[k] == '_' then '-' else v.lower[k])
              && v.under[k] == (if v.lower[k] == '-' then '_' else v.lower[k])
  {
    var lower := ToLower(project);
    Variants(lower, Dashed(lower), Underscored(lower))
  }

  predicate ContainsVariant(s: string, v: Variants) {
    Contains(s, v.lower) || Contains(s, v.dash) || Contains(s, v.under)
  }

  predicate EqualsVariantFold(s: string, v: Variants) {
    EqualFold(s, v.lower) || EqualFold(s, v.dash) || EqualFold(s, v.under)
  }

  /** Re-dashing forgets which separator was there. */
  lemma DashedForgetsSeparator(s: string)
    ensures Dashed(Underscored(s)) == Dashed(s)
    ensures Underscored(Dashed(s)) == Underscored(s)
  {
  }

  /** A project and a spelling of it that differ only in `-` against `_`
      have the same dash and underscore variants. */
  lemma SeparatorSwapSameVariants(p: string, q: string)
    requires Dashed(ToLower(p)) == Dashed(ToLower(q))
    ensures VariantsOf(p).dash == VariantsOf(q).dash
    ensures VariantsOf(p).under == VariantsOf(q).under
  {
    DashedForgetsSeparator(ToLower(p));
    DashedForgetsSeparator(ToLower(q));
  }

  /** A container name that contains the project name written with the
      other separator (consistently all dashes or all underscores) still
      matches by name. */
  lemma SeparatorSwapMatches(p: string, q: string, name: string)
    requires Dashed(ToLower(p)) == Dashed(ToLower(q))
    requires ToLower(q) == Dashed(ToLower(q)) || ToLower(q) == Underscored(ToLower(q))
    requires Contains(ToLower(name), ToLower(q))
    ensures ContainsVariant(ToLower(name), VariantsOf(p))
  {
    SeparatorSwapSameVariants(p, q);
    DashedForgetsSeparator(ToLower(q));
  }

  // ---------------------------------------------------------------------
  // Pass 1: names and labels

  predicate NameMatches(v: Variants, c: ContainerInfo) {
    ContainsVariant(ToLower(c.name), v)
  }

  /** The exact compose project label, compared ignoring case. */
  predicate ExactProjectLabel(project: string, v: Variants, key: string, value: string) {
    key == ProjectLabel && (EqualFold(value, project) || EqualFold(value, v.dash) || EqualFold(value, v.under))
  }

  /** Any label whose key mentions "compose" or "project" and whose value
      contains a variant, ignoring case. */
  predicate ComposeLikeLabel(v: Variants, key: string, value: string) {
    (Contains(ToLower(key), "compose") || Contains(ToLower(key), "project")) && ContainsVariant(ToLower(value), v)
  }

  predicate LabelMatches(project: string, v: Variants, key: string, value: string) {
    ExactProjectLabel(project, v, key, value) || ComposeLikeLabel(v, key, value)
  }

  predicate LabelsMatch(project: string, v: Variants, labels: Option<map<string, string>>) {
    labels.Some? && exists key :: key in labels.value && LabelMatches(project, v, key, labels.value[key])
  }

  /** Pass 1 keeps a container when its name matches, or else when one of
      its labels does. */
  predicate FirstPassKeeps(project: string, v: Variants, inspect: string -> Option<map<string, string>>,
                           c: ContainerInfo) {
    NameMatches(v, c) || LabelsMatch(project, v, inspect(c.id))
  }

  function NamePass(project: string, v: Variants, inspect: string -> Option<map<string, string>>,
                    cs: seq<ContainerInfo>): seq<ContainerInfo>
  {
    if cs == [] then []
    else
      var rest := NamePass(project, v, inspect, cs[..|cs| - 1]);
      if FirstPassKeeps(project, v, inspect, cs[|cs| - 1]) then rest + [cs[|cs| - 1]] else rest
  }

  /** Pass 1 keeps exactly the containers that match, in their listed order. */
  lemma {:induction false} NamePassIff(project: string, v: Variants, inspect: string -> Option<map<string, string>>,
                                       cs: seq<ContainerInfo>, c: ContainerInfo)
    ensures c in NamePass(project, v, inspect, cs) <==> c in cs && FirstPassKeeps(project, v, inspect, c)
  {
    if cs != [] {
      var init := cs[..|cs| - 1];
      NamePassIff(project, v, inspect, init, c);
      assert cs == init + [cs[|cs| - 1]];
    }
  }

  lemma {:induction false} NamePassNoLonger(project: string, v: Variants, inspect: string -> Option<map<string, string>>,
                                            cs: seq<ContainerInfo>)
    ensures |NamePass(project, v, inspect, cs)| <= |cs|
  {
    if cs != [] {
      NamePassNoLonger(project, v, inspect, cs[..|cs| - 1]);
    }
  }

  /** The exact-label rule adds nothing: the project label's key contains
      "compose", and a value equal to a variant ignoring case contains it. */
  lemma ExactLabelIsComposeLike(project: string, key: string, value: string)
    requires ExactProjectLabel(project, VariantsOf(project), key, value)
    ensures ComposeLikeLabel(VariantsOf(project), key, value)
  {
    var v := VariantsOf(project);
    assert ToLower(key) == key;
    assert OccursAt(key, "compose", 11);
    LowerVariantsAreLower(project);
    if EqualFold(value, project) {
      assert OccursAt(ToLower(value), v.lower, 0);
    } else if EqualFold(value, v.dash) {
      assert OccursAt(ToLower(value), v.dash, 0);
    } else {
      assert OccursAt(ToLower(value), v.under, 0);
    }
  }

  lemma LowerVariantsAreLower(project: string)
    ensures ToLower(ToLower(project)) == ToLower(project)
    ensures ToLower(VariantsOf(project).dash) == VariantsOf(project).dash
    ensures ToLower(VariantsOf(project).under) == VariantsOf(project).under
  {
    var v := VariantsOf(project);
    assert forall k :: 0 <= k < |v.dash| ==> LowerChar(v.dash[k]) == v.dash[k];
    assert forall k :: 0 <= k < |v.under| ==> LowerChar(v.under[k]) == v.under[k];
  }

  /** Method of the label loop: Go ranges over the label map in no fixed
      order and stops at the first label that matches. */
  method ScanLabels(project: string, v: Variants, labels: map<string, string>) returns (matched: bool)
    ensures matched <==> exists key :: key in labels && LabelMatches(project, v, key, labels[key])
  {
    matched := false;
    var remaining := labels.Keys;
    while remaining != {}
      invariant remaining <= labels.Keys
      invariant forall key :: key in labels && key !in remaining ==> !LabelMatches(project, v, key, labels[key])
      decreases |remaining|
    {
      var key :| key in remaining;
      var labelVal := labels[key];
      if key == ProjectLabel &&
         (EqualFold(labelVal, project) || EqualFold(labelVal, v.dash) || EqualFold(labelVal, v.under)) {
        assert LabelMatches(project, v, key, labels[key]);
        matched := true;
        break;
      }
      if (Contains(ToLower(key), "compose") || Contains(ToLower(key), "project")) &&
         (Contains(ToLower(labelVal), v.lower) || Contains(ToLower(labelVal), v.dash) ||
          Contains(ToLower(labelVal), v.under)) {
        assert LabelMatches(project, v, key, labels[key]);
        matched := true;
        break;
      }
      remaining := remaining - {key};
    }
  }

  method FirstPass(project: string, v: Variants, inspect: string -> Option<map<string, string>>,
                   containers: seq<ContainerInfo>) returns (found: seq<ContainerInfo>)
    ensures found == NamePass(project, v, inspect, containers)
  {
    found := [];
    for i := 0 to |containers|
      invariant found == NamePass(project, v, inspect, containers[..i])
    {
      var container := containers[i];
      assert containers[..i + 1][..i] == containers[..i];
      var matched := false;
      var containerNameLower := ToLower(container.name);
      if Contains(containerNameLower, v.lower) || Contains(containerNameLower, v.dash) ||
         Contains(containerNameLower, v.under) {
        found := found + [container];
        matched := true;
      }
      if !matched {
        var info := inspect(container.id);
        if info.Some? {
          var labelled := ScanLabels(project, v, info.value);
          if labelled {
            found := found + [container];
          }
        }
      }
    }
    assert containers[..|containers|] == containers;
  }

  // ---------------------------------------------------------------------
  // Collecting without duplicate IDs

  predicate HasId(cs: seq<ContainerInfo>, id: string) {
    exists i | 0 <= i < |cs| :: cs[i].id == id
  }

  predicate DistinctIds(cs: seq<ContainerInfo>) {
    forall i, j :: 0 <= i < j < |cs| ==> cs[i].id != cs[j].id
  }

  /** Append a container unless one with its ID is already collected. */
  function AddIfNew(acc: seq<ContainerInfo>, c: ContainerInfo): (r: seq<ContainerInfo>)
    ensures DistinctIds(acc) ==> DistinctIds(r)
    ensures HasId(r, c.id)
    ensures forall x :: x in r <==> x in acc || (x == c && !HasId(acc, c.id))
    ensures forall id :: HasId(acc, id) ==> HasId(r, id)
  {
    if HasId(acc, c.id) then acc
    else
      var r := acc + [c];
      assert r[|acc|].id == c.id;
      assert forall id :: HasId(acc, id) ==> HasId(r, id) by {
        forall id | HasId(acc, id) ensures HasId(r, id) {
          var i :| 0 <= i < |acc| && acc[i].id == id;
          assert r[i].id == id;
        }
      }
      r
  }

  /** The alreadyAdded loop. */
  method AlreadyAdded(added: seq<ContainerInfo>, id: string) returns (found: bool)
    ensures found == HasId(added, id)
  {
    found := false;
    for i := 0 to |added|
      invariant forall j :: 0 <= j < i ==> added[j].id != id
    {
      if added[i].id == id {
        found := true;
        break;
      }
    }
  }

  // ---------------------------------------------------------------------
  // Pass 2: IDs reported by the compose CLI

  /** A listed (short) ID matches a CLI ID when the CLI ID is a prefix of
      it, or when both have at least 12 characters and the first 12 of the
      CLI ID are. */
  predicate CliIdMatches(existing: string, id: string) {
    HasPrefix(existing, id) || (|id| >= 12 && |existing| >= 12 && HasPrefix(existing, id[..12]))
  }

  /** Position of the first listed container a CLI ID matches. */
  function FirstCliMatch(cs: seq<ContainerInfo>, id: string): (r: Option<nat>)
    ensures r.Some? ==> r.value < |cs| && CliIdMatches(cs[r.value].id, id)
    ensures r.Some? ==> forall j :: 0 <= j < r.value ==> !CliIdMatches(cs[j].id, id)
    ensures r.None? ==> forall j :: 0 <= j < |cs| ==> !CliIdMatches(cs[j].id, id)
  {
    if cs == [] then None
    else if CliIdMatches(cs[0].id, id) then Some(0)
    else match FirstCliMatch(cs[1..], id)
      case None => None
      case Some(j) => Some(j + 1)
  }

  /** Pass 2 over the CLI entries: each string ID adds the first listed
      container it matches, unless that container's ID is already there. */
  function CliPass(cs: seq<ContainerInfo>, ids: seq<Option<string>>): seq<ContainerInfo>
  {
    if ids == [] then []
    else
      var acc := CliPass(cs, ids[..|ids| - 1]);
      match ids[|ids| - 1]
      case None => acc
      case Some(id) =>
        match FirstCliMatch(cs, id)
        case None => acc
        case Some(j) => AddIfNew(acc, cs[j])
  }

  /** The container one CLI entry selects, if any. */
  predicate SelectedByEntry(cs: seq<ContainerInfo>, entry: Option<string>, x: ContainerInfo) {
    entry.Some? && FirstCliMatch(cs, entry.value).Some? && cs[FirstCliMatch(cs, entry.value).value] == x
  }

  /** Pass 2 never collects an ID twice, and collects exactly containers
      selected by some CLI entry, each selected container by its ID. Their
      order, that of the CLI entries, is the one CliPass builds. */
  lemma {:induction false} CliPassProperties(cs: seq<ContainerInfo>, ids: seq<Option<string>>)
    ensures DistinctIds(CliPass(cs, ids))
    ensures forall x :: x in CliPass(cs, ids) ==> exists t :: 0 <= t < |ids| && SelectedByEntry(cs, ids[t], x)
    ensures forall t, x :: 0 <= t < |ids| && SelectedByEntry(cs, ids[t], x) ==> HasId(CliPass(cs, ids), x.id)
  {
    if ids != [] {
      var init := ids[..|ids| - 1];
      CliPassProperties(cs, init);
      var acc := CliPass(cs, init);
      var last := ids[|ids| - 1];
      forall x | x in CliPass(cs, ids) ensures exists t :: 0 <= t < |ids| && SelectedByEntry(cs, ids[t], x) {
        if x in acc {
          var t :| 0 <= t < |init| && SelectedByEntry(cs, init[t], x);
          assert ids[t] == init[t];
        } else {
          assert SelectedByEntry(cs, ids[|ids| - 1], x);
        }
      }
      forall t, x | 0 <= t < |ids| && SelectedByEntry(cs, ids[t], x) ensures HasId(CliPass(cs, ids), x.id) {
        if t < |init| {
          assert init[t] == ids[t];
          assert HasId(acc, x.id);
        }
      }
    }
  }

  /** The prefix search over the listed containers, stopping at the first hit. */
  method FindCliMatch(containers: seq<ContainerInfo>, id: string) returns (r: Option<nat>)
    ensures r == FirstCliMatch(containers, id)
  {
    r := None;
    for i := 0 to |containers|
      invariant forall j :: 0 <= j < i ==> !CliIdMatches(containers[j].id, id)
    {
      var existing := containers[i].id;
      if HasPrefix(existing, id) || (|id| >= 12 && |existing| >= 12 && HasPrefix(existing, id[..12])) {
        r := Some(i);
        break;
      }
    }
    FirstCliMatchUnique(containers, id, r);
  }

  /** FirstCliMatch is pinned down by its contract. */
  lemma {:induction false} FirstCliMatchUnique(cs: seq<ContainerInfo>, id: string, r: Option<nat>)
    requires r.Some? ==> r.value < |cs| && CliIdMatches(cs[r.value].id, id)
    requires r.Some? ==> forall j :: 0 <= j < r.value ==> !CliIdMatches(cs[j].id, id)
    requires r.None? ==> forall j :: 0 <= j < |cs| ==> !CliIdMatches(cs[j].id, id)
    ensures r == FirstCliMatch(cs, id)
  {
  }

  method SecondPass(containers: seq<ContainerInfo>, ids: seq<Option<string>>) returns (found: seq<ContainerInfo>)
    ensures found == CliPass(containers, ids)
  {
    found := [];
    for t := 0 to |ids|
      invariant found == CliPass(containers, ids[..t])
    {
      assert ids[..t + 1][..t] == ids[..t];
      var entry := ids[t];
      if entry.Some? {
        var id := entry.value;
        var j := FindCliMatch(containers, id);
        if j.Some? {
          var existingContainer := containers[j.value];
          var alreadyAdded := AlreadyAdded(found, existingContainer.id);
          if !alreadyAdded {
            found := found + [existingContainer];
          }
        }
      }
    }
    assert ids[..|ids|] == ids;
  }

  // ---------------------------------------------------------------------
  // Pass 3: `_`-separated parts of container names

  predicate TokenMatches(v: Variants, name: string) {
    var parts := Split(name, "_");
    exists i | 0 <= i < |parts| :: EqualsVariantFold(parts[i], v)
  }

  function TokenPass(v: Variants, cs: seq<ContainerInfo>): seq<ContainerInfo>
  {
    if cs == [] then []
    else
      var acc := TokenPass(v, cs[..|cs| - 1]);
      if TokenMatches(v, cs[|cs| - 1].name) then AddIfNew(acc, cs[|cs| - 1]) else acc
  }

  /** Pass 3 never collects an ID twice; every container it collects has a
      matching name part; every listed container with one is represented by
      its ID. Their order, that of the listing, is the one TokenPass builds. */
  lemma {:induction false} TokenPassProperties(v: Variants, cs: seq<ContainerInfo>)
    ensures DistinctIds(TokenPass(v, cs))
    ensures forall x :: x in TokenPass(v, cs) ==> x in cs && TokenMatches(v, x.name)
    ensures forall c :: c in cs && TokenMatches(v, c.name) ==> HasId(TokenPass(v, cs), c.id)
  {
    if cs != [] {
      var init := cs[..|cs| - 1];
      TokenPassProperties(v, init);
      assert cs == init + [cs[|cs| - 1]];
    }
  }

  /** The loop over the parts of one name, stopping at the first match. */
  method ScanTokens(v: Variants, name: string) returns (found: bool)
    ensures found == TokenMatches(v, name)
  {
    var parts := Split(name, "_");
    found := false;
    for i := 0 to |parts|
      invariant forall j :: 0 <= j < i ==> !EqualsVariantFold(parts[j], v)
    {
      var part := parts[i];
      if EqualFold(part, v.lower) || EqualFold(part, v.dash) || EqualFold(part, v.under) {
        found := true;
        break;
      }
    }
  }

  method ThirdPass(v: Variants, containers: seq<ContainerInfo>) returns (found: seq<ContainerInfo>)
    ensures found == TokenPass(v, containers)
  {
    found := [];
    for i := 0 to |containers|
      invariant found == TokenPass(v, containers[..i])
    {
      assert containers[..i + 1][..i] == containers[..i];
      var container := containers[i];
      var matches := ScanTokens(v, container.name);
      if matches {
        var alreadyAdded := AlreadyAdded(found, container.id);
        if !alreadyAdded {
          found := found + [container];
        }
      }
    }
    assert containers[..|containers|] == containers;
  }

  // ---------------------------------------------------------------------
  // The whole matcher

  /** The containers matched for a non-empty project name: pass 1, else
      pass 2, else pass 3. */
  function Matched(project: string, inspect: string -> Option<map<string, string>>,
                   cli: Option<seq<Option<string>>>, cs: seq<ContainerInfo>): seq<ContainerInfo>
  {
    var v := VariantsOf(project);
    var first := NamePass(project, v, inspect, cs);
    if first != [] then first
    else
      var second := if cli.Some? then CliPass(cs, cli.value) else [];
      if second != [] then second else TokenPass(v, cs)
  }

  method FetchComposeContainers(project: string, listed: Result<seq<ContainerInfo>, string>,
                                inspect: string -> Option<map<string, string>>,
                                cli: Option<seq<Option<string>>>)
    returns (r: Result<seq<ContainerInfo>, string>)
    ensures project == "" ==> r == Failure("no project selected")
    ensures project != "" && listed.Failure? ==> r == Failure(listed.error)
    ensures project != "" && listed.Success? ==> r == Success(Matched(project, inspect, cli, listed.value))
  {
    if project == "" {
      return Failure("no project selected");
    }
    var v := VariantsOf(project);
    if listed.Failure? {
      return Failure(listed.error);
    }
    var containers := listed.value;
    var composeContainers := FirstPass(project, v, inspect, containers);
    if |composeContainers| == 0 && cli.Some? {
      composeContainers := SecondPass(containers, cli.value);
    }
    if |composeContainers| == 0 {
      composeContainers := ThirdPass(v, containers);
    }
    return Success(composeContainers);
  }

  /** Every matched container is one of the listed ones. */
  lemma MatchedAreListed(project: string, inspect: string -> Option<map<string, string>>,
                         cli: Option<seq<Option<string>>>, cs: seq<ContainerInfo>)
    ensures forall x :: x in Matched(project, inspect, cli, cs) ==> x in cs
  {
    var v := VariantsOf(project);
    forall x | x in NamePass(project, v, inspect, cs) ensures x in cs {
      NamePassIff(project, v, inspect, cs, x);
    }
    if cli.Some? {
      CliPassProperties(cs, cli.value);
    }
    TokenPassProperties(v, cs);
  }

  /** When pass 1 finds nothing, the result has no duplicate IDs. */
  lemma FallbackHasDistinctIds(project: string, inspect: string -> Option<map<string, string>>,
                               cli: Option<seq<Option<string>>>, cs: seq<ContainerInfo>)
    requires NamePass(project, VariantsOf(project), inspect, cs) == []
    ensures DistinctIds(Matched(project, inspect, cli, cs))
  {
    if cli.Some? {
      CliPassProperties(cs, cli.value);
    }
    TokenPassProperties(VariantsOf(project), cs);
  }
}
