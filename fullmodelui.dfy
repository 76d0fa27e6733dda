/** The selection and navigation rules of the FullModel in
    internal/ui/fullmodel.go: tab cycling, the Back key, updateSelection, the
    container-number prompt of the compose inspect view, jumpToContainer, the
    status icon of a container row, the unit chosen by formatBytes, and the
    rewriting of service-listing errors.  A table is reduced to its cursor and
    its number of rows; rendering and the Docker calls are left out. */
module FullModelUi {
  import opened Wrappers
  import opened GoStrings
  import opened DockerTypes
  import ComposeServices

  // ---------------------------------------------------------------------
  // Tabs, modes, commands

  /** The Tab constants.  LogsTab (5) is declared but never selected. */
  const ContainersTab: nat := 0
  const ImagesTab: nat := 1
  const VolumesTab: nat := 2
  const NetworksTab: nat := 3
  const ComposeTab: nat := 4
  /** The number of tabs the tab keys cycle through. */
  const TabCount: nat := 5

  datatype Mode = ListMode | InspectMode | LogsMode | MonitorMode

  /** The commands Update hands back that matter here. */
  datatype Command =
    | FetchContainers | FetchImages | FetchVolumes | FetchNetworks | FetchComposeProjects
    | FetchStats | StopStatsRefresh

  /** How a key handler ends: Update returns (with a command or none), or the
      key goes on to the action keys of the current mode. */
  datatype KeyOutcome = Handled(cmd: Option<Command>) | FallThrough

  /** The tab after t.  Tab values are never negative, so Go's remainder and
      Dafny's agree. */
  function NextTab(t: nat): (r: nat)
    ensures r < TabCount && r != t
  {
    (t + 1) % TabCount
  }

  /** The tab before t. */
  function PrevTab(t: nat): (r: nat)
    ensures r < TabCount && r != t
  {
    (t - 1 + TabCount) % TabCount
  }

  /** On the five tabs, the two tab keys undo each other. */
  lemma TabKeysUndoEachOther(t: nat)
    requires t < TabCount
    ensures PrevTab(NextTab(t)) == t && NextTab(PrevTab(t)) == t
  {
  }

  /** Five presses of the tab key come back to the same tab. */
  lemma NextTabCycles(t: nat)
    requires t < TabCount
    ensures NextTab(NextTab(NextTab(NextTab(NextTab(t))))) == t
    ensures forall k :: 0 < k < TabCount ==> TabAfter(t, k) != t
  {
    forall k | 0 < k < TabCount
      ensures TabAfter(t, k) != t
    {
      TabAfterIs(t, k);
    }
  }

  /** The tab reached after k presses of the tab key. */
  function TabAfter(t: nat, k: nat): nat {
    if k == 0 then t else NextTab(TabAfter(t, k - 1))
  }

  lemma {:induction false} TabAfterIs(t: nat, k: nat)
    requires t < TabCount
    ensures TabAfter(t, k) == (t + k) % TabCount
  {
    if k > 0 {
      TabAfterIs(t, k - 1);
    }
  }

  /** The refresh issued on arriving at a tab. */
  function TabFetch(t: nat): Command
    requires t < TabCount
  {
    if t == ContainersTab then FetchContainers
    else if t == ImagesTab then FetchImages
    else if t == VolumesTab then FetchVolumes
    else if t == NetworksTab then FetchNetworks
    else FetchComposeProjects
  }

  // ---------------------------------------------------------------------
  // The state of the model

  datatype VolumeInfo = VolumeInfo(name: string)
  datatype NetworkInfo = NetworkInfo(id: string, name: string)

  /** A table as selection sees it: its cursor and its number of rows. */
  datatype TableView = TableView(cursor: int, rows: nat)

  /** table.SelectedRow() is non-empty: the cursor is on a row (every row the
      model builds has columns). */
  predicate RowSelected(t: TableView) {
    0 <= t.cursor < t.rows
  }

  /** table.SetCursor: the cursor clamped to 0..rows-1 (which is -1 when there
      are no rows). */
  function SetCursor(t: TableView, n: int): (r: TableView)
    ensures r.rows == t.rows
    ensures RowSelected(r) <==> t.rows > 0
    ensures 0 <= n < t.rows ==> r.cursor == n
    ensures t.rows > 0 && n >= t.rows ==> r.cursor == t.rows - 1
  {
    var low := if n < 0 then 0 else n;
    TableView(if low > t.rows - 1 then t.rows - 1 else low, t.rows)
  }

  /** The value of every FullModel field the rules read or write. */
  datatype UiState = UiState(
    currentTab: nat, currentMode: Mode, statusMsg: string,
    selectedID: string, selectedName: string, selectedPath: string,
    containers: seq<ContainerInfo>, images: seq<ImageInfo>, volumes: seq<VolumeInfo>,
    networks: seq<NetworkInfo>, composeProjects: seq<ComposeInfo>, composeContainers: seq<ContainerInfo>,
    containerTable: TableView, imageTable: TableView, volumeTable: TableView,
    networkTable: TableView, composeTable: TableView)

  /** The state after a key, and how the key handler ended. */
  datatype Step = Step(state: UiState, outcome: KeyOutcome)

  /** getCurrentTable. */
  function CurrentTable(s: UiState): TableView {
    if s.currentTab == ImagesTab then s.imageTable
    else if s.currentTab == VolumesTab then s.volumeTable
    else if s.currentTab == NetworksTab then s.networkTable
    else if s.currentTab == ComposeTab then s.composeTable
    else s.containerTable
  }

  /** The same state with possibly other selection fields and status message. */
  predicate OnlySelectionDiffers(s: UiState, r: UiState) {
    r == s.(selectedID := r.selectedID, selectedName := r.selectedName,
            selectedPath := r.selectedPath, statusMsg := r.statusMsg)
  }

  // ---------------------------------------------------------------------
  // Tab keys and Back

  /** The NextTab key: in ListMode the next tab and its refresh; in any other
      mode the key goes on. */
  function NextTabStep(s: UiState): (r: Step)
    ensures s.currentMode == ListMode ==>
              r == Step(s.(currentTab := NextTab(s.currentTab)), Handled(Some(TabFetch(NextTab(s.currentTab)))))
    ensures s.currentMode != ListMode ==> r == Step(s, FallThrough)
  {
    if s.currentMode == ListMode then
      var t := NextTab(s.currentTab);
      Step(s.(currentTab := t), Handled(Some(TabFetch(t))))
    else Step(s, FallThrough)
  }

  /** The PrevTab key. */
  function PrevTabStep(s: UiState): (r: Step)
    ensures s.currentMode == ListMode ==>
              r == Step(s.(currentTab := PrevTab(s.currentTab)), Handled(Some(TabFetch(PrevTab(s.currentTab)))))
    ensures s.currentMode != ListMode ==> r == Step(s, FallThrough)
  {
    if s.currentMode == ListMode then
      var t := PrevTab(s.currentTab);
      Step(s.(currentTab := t), Handled(Some(TabFetch(t))))
    else Step(s, FallThrough)
  }

  /** The Back key: MonitorMode returns to ListMode and stops the stats
      refresh, another mode returns to ListMode, ListMode lets the key go on. */
  function BackStep(s: UiState): (r: Step)
    ensures r.state.currentMode == ListMode
    ensures r.state == s.(currentMode := ListMode)
    ensures r.outcome == (if s.currentMode == MonitorMode then Handled(Some(StopStatsRefresh))
                          else if s.currentMode != ListMode then Handled(None)
                          else FallThrough)
  {
    if s.currentMode == MonitorMode then Step(s.(currentMode := ListMode), Handled(Some(StopStatsRefresh)))
    else if s.currentMode != ListMode then Step(s.(currentMode := ListMode), Handled(None))
    else Step(s, FallThrough)
  }

  /** A tab key followed by the other one, in ListMode, restores the tab. */
  lemma TabStepsUndo(s: UiState)
    requires s.currentMode == ListMode && s.currentTab < TabCount
    ensures PrevTabStep(NextTabStep(s).state).state == s
    ensures NextTabStep(PrevTabStep(s).state).state == s
  {
    TabKeysUndoEachOther(s.currentTab);
  }

  // ---------------------------------------------------------------------
  // Searches over the model's lists

  /** The tests the project loops of updateSelection apply. */
  datatype ProjectTest = NameIs(name: string) | HasPath

  predicate ProjectMeets(p: ComposeInfo, t: ProjectTest) {
    match t
    case NameIs(n) => p.name == n
    case HasPath => p.path != ""
  }

  /** The first project at or after `from` that passes the test. */
  function FirstProject(ps: seq<ComposeInfo>, t: ProjectTest, from: nat): (r: Option<nat>)
    requires from <= |ps|
    decreases |ps| - from
    ensures r.Some? ==> from <= r.value < |ps| && ProjectMeets(ps[r.value], t)
    ensures r.Some? ==> forall j :: from <= j < r.value ==> !ProjectMeets(ps[j], t)
    ensures r.None? ==> forall j :: from <= j < |ps| ==> !ProjectMeets(ps[j], t)
  {
    if from == |ps| then None
    else if ProjectMeets(ps[from], t) then Some(from)
    else FirstProject(ps, t, from + 1)
  }

  /** A `for ... range` loop over the projects that breaks at the first match. */
  method FindProject(ps: seq<ComposeInfo>, t: ProjectTest) returns (r: Option<nat>)
    ensures r == FirstProject(ps, t, 0)
  {
    r := None;
    for i := 0 to |ps|
      invariant forall j :: 0 <= j < i ==> !ProjectMeets(ps[j], t)
    {
      if ProjectMeets(ps[i], t) {
        r := Some(i);
        break;
      }
    }
  }

  /** The tests the container loops of jumpToContainer apply: an ID prefix,
      the name without a leading "/", and the first six ID characters ignoring
      case. */
  datatype ContainerTest = IdPrefix(id: string) | BareNameIs(name: string) | IdHeadFold(head: string)

  predicate ContainerMeets(c: ContainerInfo, t: ContainerTest) {
    match t
    case IdPrefix(id) => HasPrefix(c.id, id)
    case BareNameIs(n) => TrimPrefix(c.name, "/") == n
    case IdHeadFold(id) => |id| >= 6 && |c.id| >= 6 && EqualFold(c.id[..6], id[..6])
  }

  /** The first container at or after `from` that passes the test. */
  function FirstContainer(cs: seq<ContainerInfo>, t: ContainerTest, from: nat): (r: Option<nat>)
    requires from <= |cs|
    decreases |cs| - from
    ensures r.Some? ==> from <= r.value < |cs| && ContainerMeets(cs[r.value], t)
    ensures r.Some? ==> forall j :: from <= j < r.value ==> !ContainerMeets(cs[j], t)
    ensures r.None? ==> forall j :: from <= j < |cs| ==> !ContainerMeets(cs[j], t)
  {
    if from == |cs| then None
    else if ContainerMeets(cs[from], t) then Some(from)
    else FirstContainer(cs, t, from + 1)
  }

  /** A `for ... range` loop over containers that breaks at the first match. */
  method FindContainer(cs: seq<ContainerInfo>, t: ContainerTest) returns (r: Option<nat>)
    ensures r == FirstContainer(cs, t, 0)
  {
    r := None;
    for i := 0 to |cs|
      invariant forall j :: 0 <= j < i ==> !ContainerMeets(cs[j], t)
    {
      if ContainerMeets(cs[i], t) {
        r := Some(i);
        break;
      }
    }
  }

  // ---------------------------------------------------------------------
  // updateSelection

  /** The selection after updateSelection: cleared when no row is selected;
      otherwise taken from the list of the current tab at the cursor, when
      the cursor is inside that list. */
  function SelectionAfter(s: UiState): (r: UiState)
    ensures OnlySelectionDiffers(s, r)
  {
    var t := CurrentTable(s);
    if !RowSelected(t) then s.(selectedID := "", selectedName := "", selectedPath := "")
    else
      var k := t.cursor;
      if s.currentTab == ContainersTab then
        if 0 < |s.containers| && k < |s.containers| then
          s.(selectedID := s.containers[k].id, selectedName := s.containers[k].name)
        else s
      else if s.currentTab == ImagesTab then
        if 0 < |s.images| && k < |s.images| then
          s.(selectedID := s.images[k].id,
             selectedName := if |s.images[k].repoTags| > 0 then s.images[k].repoTags[0] else "")
        else s
      else if s.currentTab == VolumesTab then
        if 0 < |s.volumes| && k < |s.volumes| then
          s.(selectedID := s.volumes[k].name, selectedName := s.volumes[k].name)
        else s
      else if s.currentTab == NetworksTab then
        if 0 < |s.networks| && k < |s.networks| then
          s.(selectedID := s.networks[k].id, selectedName := s.networks[k].name)
        else s
      else if s.currentTab == ComposeTab then
        if 0 < |s.composeProjects| && k < |s.composeProjects| then ComposeSelection(s, k) else s
      else s
  }

  /** Selecting the project at k: its name, and its path; an empty path is
      replaced by the path of the first project with the same name, and if
      that is empty too, by the first non-empty path of any project. */
  function ComposeSelection(s: UiState, k: nat): (r: UiState)
    requires k < |s.composeProjects|
    ensures OnlySelectionDiffers(s, r)
  {
    var ps := s.composeProjects;
    var p := ps[k];
    var chosen := s.(selectedID := p.name, selectedName := p.name, selectedPath := p.path);
    if p.path != "" || p.name == "" then chosen
    else
      var named :=
        match FirstProject(ps, NameIs(p.name), 0)
        case Some(j) => chosen.(selectedPath := ps[j].path, statusMsg := "Found project path: " + ps[j].path)
        case None => chosen;
      if named.selectedPath != "" then named
      else
        match FirstProject(ps, HasPath, 0)
        case Some(j) =>
          named.(selectedPath := ps[j].path,
                 statusMsg := "Using fallback path from project " + ps[j].name + ": " + ps[j].path)
        case None => named
  }

  /** With no row under the cursor, the selection is cleared and nothing else
      changes. */
  lemma EmptyRowClearsSelection(s: UiState)
    requires !RowSelected(CurrentTable(s))
    ensures SelectionAfter(s) == s.(selectedID := "", selectedName := "", selectedPath := "")
  {
  }

  /** On the Containers tab, the container at the cursor is selected and the
      status message is kept. */
  lemma ContainerRowSelected(s: UiState)
    requires s.currentTab == ContainersTab && RowSelected(s.containerTable)
    requires s.containerTable.cursor < |s.containers|
    ensures var c := s.containers[s.containerTable.cursor];
            SelectionAfter(s) == s.(selectedID := c.id, selectedName := c.name)
  {
  }

  /** On the Compose tab, the project at the cursor is the one selected. */
  lemma ComposeRowSelected(s: UiState)
    requires s.currentTab == ComposeTab && RowSelected(s.composeTable)
    requires s.composeTable.cursor < |s.composeProjects|
    ensures SelectionAfter(s) == ComposeSelection(s, s.composeTable.cursor)
  {
  }

  /** Selecting a project takes its name; its own path is kept when
      non-empty, with the status message untouched. */
  lemma ComposeSelectionKeepsPath(s: UiState, k: nat)
    requires k < |s.composeProjects|
    ensures var p := s.composeProjects[k];
            var r := ComposeSelection(s, k);
            && r.selectedID == p.name && r.selectedName == p.name
            && (p.path != "" ==> r.selectedPath == p.path && r.statusMsg == s.statusMsg)
  {
  }

  /** An empty path of a named project is replaced by the path of the first
      project with that name when that one has a path; otherwise by the first
      non-empty path of any project, with the status naming that project.
      The path becomes non-empty exactly when some project has a path. */
  lemma ComposePathFallback(s: UiState, k: nat)
    requires k < |s.composeProjects|
    requires s.composeProjects[k].path == "" && s.composeProjects[k].name != ""
    ensures var ps := s.composeProjects;
            var r := ComposeSelection(s, k);
            && (r.selectedPath != "" <==> exists j :: 0 <= j < |ps| && ps[j].path != "")
            && exists j :: 0 <= j <= k && ps[j].name == ps[k].name &&
                 (forall i :: 0 <= i < j ==> ps[i].name != ps[k].name) &&
                 (ps[j].path != "" ==>
                    r.selectedPath == ps[j].path && r.statusMsg == "Found project path: " + ps[j].path) &&
                 (ps[j].path == "" ==>
                    forall f :: 0 <= f < |ps| && ps[f].path != "" && (forall i :: 0 <= i < f ==> ps[i].path == "") ==>
                      r.selectedPath == ps[f].path
                      && r.statusMsg == "Using fallback path from project " + ps[f].name + ": " + ps[f].path)
  {
    var ps := s.composeProjects;
    var p := ps[k];
    assert ProjectMeets(ps[k], NameIs(p.name));
    var j := FirstProject(ps, NameIs(p.name), 0).value;
    assert j <= k;
    var chosen := s.(selectedID := p.name, selectedName := p.name, selectedPath := p.path);
    var named := chosen.(selectedPath := ps[j].path, statusMsg := "Found project path: " + ps[j].path);
    var r := ComposeSelection(s, k);
    if ps[j].path != "" {
      assert r == named;
    } else {
      match FirstProject(ps, HasPath, 0)
      case Some(f0) =>
        assert r.selectedPath == ps[f0].path;
        forall f | 0 <= f < |ps| && ps[f].path != "" && (forall i :: 0 <= i < f ==> ps[i].path == "")
          ensures f == f0
        {
        }
      case None =>
        assert r.selectedPath == "";
        forall i | 0 <= i < |ps|
          ensures ps[i].path == ""
        {
          assert !ProjectMeets(ps[i], HasPath);
        }
    }
  }

  // ---------------------------------------------------------------------
  // jumpToContainer

  /** The display name cut at " (" when that occurs after the first
      character: the container name without its service. */
  function BaseName(name: string): (r: string)
    ensures |r| <= |name| && r == name[..|r|]
  {
    var idx := Index(name, " (");
    if idx > 0 then name[..idx] else name
  }

  /** The base name recovers a container name from the "name (service)"
      display the compose parsers build, for a name without spaces. */
  lemma BaseNameOfDisplay(name: string, service: string)
    requires name != [] && ' ' !in name
    ensures BaseName(WithService(name, service)) == name
  {
    var d := WithService(name, service);
    forall j | 0 <= j < |name|
      ensures !OccursAt(d, " (", j)
    {
      assert d[j] == name[j];
    }
    if service != "" {
      assert d == name + " (" + service + ")";
      assert OccursAt(d, " (", |name|);
    } else {
      assert !Contains(d, " (");
    }
  }

  /** The name of the compose container whose ID starts with `id`, without
      its service; "" if there is none. */
  function ComposeName(cc: seq<ContainerInfo>, id: string): string {
    match FirstContainer(cc, IdPrefix(id), 0)
    case Some(k) => BaseName(cc[k].name)
    case None => ""
  }

  /** The container jumpToContainer selects: the first whose ID starts with
      `id`; else the first whose name (without a leading "/") is the compose
      name of `id`; else the first whose first six ID characters equal those
      of `id` ignoring case. */
  function JumpTarget(cs: seq<ContainerInfo>, cc: seq<ContainerInfo>, id: string): (r: Option<nat>)
    ensures r.Some? ==> r.value < |cs|
  {
    var byId := FirstContainer(cs, IdPrefix(id), 0);
    if byId.Some? then byId
    else
      var name := if |cc| > 0 then ComposeName(cc, id) else "";
      var byName := if name != "" then FirstContainer(cs, BareNameIs(name), 0) else None;
      if byName.Some? then byName else FirstContainer(cs, IdHeadFold(id), 0)
  }

  /** The three searches of jumpToContainer. */
  method FindJumpTarget(cs: seq<ContainerInfo>, cc: seq<ContainerInfo>, id: string) returns (found: Option<nat>)
    ensures found == JumpTarget(cs, cc, id)
  {
    found := FindContainer(cs, IdPrefix(id));
    if found.None? && |cc| > 0 {
      var containerName := "";
      var k := FindContainer(cc, IdPrefix(id));
      if k.Some? {
        containerName := cc[k.value].name;
        var idx := Index(containerName, " (");
        if idx > 0 {
          containerName := containerName[..idx];
        }
      }
      if containerName != "" {
        found := FindContainer(cs, BareNameIs(containerName));
      }
    }
    if found.None? {
      found := FindContainer(cs, IdHeadFold(id));
    }
  }

  /** The state after jumpToContainer(id), with the freshly listed containers
      when the listing succeeded. */
  function JumpAfter(s: UiState, id: string, refreshed: Option<seq<ContainerInfo>>): UiState {
    var cs := if refreshed.Some? then refreshed.value else s.containers;
    var moved := s.(containers := cs, currentTab := ContainersTab, currentMode := ListMode);
    FoundAfter(moved, JumpTarget(cs, s.composeContainers, id))
  }

  /** The end of jumpToContainer: the cursor put on the container found and
      the selection updated, or the not-found message. */
  function FoundAfter(s: UiState, found: Option<nat>): UiState
    requires found.Some? ==> found.value < |s.containers|
  {
    match found
    case Some(i) =>
      SelectionAfter(s.(containerTable := SetCursor(s.containerTable, i)))
        .(statusMsg := "Selected container: " + s.containers[i].name)
    case None => s.(statusMsg := "Container not found in main list. Try refreshing.")
  }

  /** jumpToContainer always lands on the Containers tab in ListMode; the
      cursor moves only when a container was found, and the selection then
      follows it to that container when the table holds its row; a container whose ID
      starts with `id` wins over the other searches, and whatever is found
      meets one of the three tests. */
  lemma JumpProperties(s: UiState, id: string, refreshed: Option<seq<ContainerInfo>>)
    ensures var r := JumpAfter(s, id, refreshed);
            var cs := if refreshed.Some? then refreshed.value else s.containers;
            var t := JumpTarget(cs, s.composeContainers, id);
            && r.currentTab == ContainersTab && r.currentMode == ListMode && r.containers == cs
            && r.composeContainers == s.composeContainers && r.composeProjects == s.composeProjects
            && (t.None? ==> r.containerTable == s.containerTable
                            && r.statusMsg == "Container not found in main list. Try refreshing.")
            && (t.Some? ==> r.containerTable == SetCursor(s.containerTable, t.value)
                            && r.statusMsg == "Selected container: " + cs[t.value].name)
            && (t.Some? && t.value < s.containerTable.rows ==>
                  r.selectedID == cs[t.value].id && r.selectedName == cs[t.value].name)
            && (t.Some? ==> ContainerMeets(cs[t.value], IdPrefix(id))
                            || ContainerMeets(cs[t.value], BareNameIs(ComposeName(s.composeContainers, id)))
                            || ContainerMeets(cs[t.value], IdHeadFold(id)))
            && (forall i :: 0 <= i < |cs| && HasPrefix(cs[i].id, id) ==>
                  t.Some? && t.value <= i && HasPrefix(cs[t.value].id, id))
  {
    var cs := if refreshed.Some? then refreshed.value else s.containers;
    forall i | 0 <= i < |cs| && HasPrefix(cs[i].id, id)
      ensures JumpTarget(cs, s.composeContainers, id) == FirstContainer(cs, IdPrefix(id), 0)
    {
      assert ContainerMeets(cs[i], IdPrefix(id));
    }
  }

  // ---------------------------------------------------------------------
  // The container-number prompt of the compose inspect view

  const PromptMsg := "Enter container number (1-9):"
  const CancelMsg := "Invalid container number. Cancelled selection."

  /** What a key does to the prompt: "c" asks for a number; otherwise, when
      the prompt is showing, a key between "1" and "9" (as strings) that reads
      as a number 1..9 picks that container or reports the range, and any
      other key cancels. */
  datatype PromptAction = AskNumber | SwitchTo(index: nat) | OutOfRange(num: int) | Cancelled | NotPrompted

  function PromptActionOf(key: string, statusMsg: string, count: nat): (r: PromptAction)
    ensures r.SwitchTo? ==> r.index < count
  {
    if key == "c" then AskNumber
    else if statusMsg != PromptMsg then NotPrompted
    else if LessEq("1", key) && LessEq(key, "9") then
      match Atoi(key)
      case Some(n) =>
        if 1 <= n <= 9 && n <= count then SwitchTo(n - 1)
        else if 1 <= n <= 9 then OutOfRange(n)
        else Cancelled
      case None => Cancelled
    else Cancelled
  }

  /** The string comparisons let through exactly the keys that start with 1..8,
      and "9" itself. */
  lemma {:induction false} BetweenOneAndNine(key: string)
    ensures LessEq("1", key) && LessEq(key, "9") <==>
              key != [] && '1' <= key[0] && (key[0] < '9' || key == "9")
  {
    if key != [] {
      assert "1"[1..] == [] && "9"[1..] == [];
      if key[0] == '9' && |key| > 1 {
        assert key[1..] != [];
        assert !LessEq(key[1..], "9"[1..]);
      }
    }
  }

  /** A key picks container d exactly when it is the single digit d, 1 <= d,
      and there are at least d containers; a single digit beyond the count is
      reported with its value; every other key cancels. */
  lemma PromptDigits(key: string, count: nat)
    requires key != "c"
    ensures var r := PromptActionOf(key, PromptMsg, count);
            && (r.SwitchTo? <==> |key| == 1 && '1' <= key[0] <= '9' && (key[0] as int - '0' as int) <= count)
            && (r.SwitchTo? ==> r.index == key[0] as int - '0' as int - 1)
            && (r.OutOfRange? <==> |key| == 1 && '1' <= key[0] <= '9' && (key[0] as int - '0' as int) > count)
            && (r.OutOfRange? ==> r.num == key[0] as int - '0' as int)
            && (r.Cancelled? <==> !(|key| == 1 && '1' <= key[0] <= '9'))
  {
    BetweenOneAndNine(key);
    if LessEq("1", key) && LessEq(key, "9") && AllDigits(key) {
      DigitsValueAtLeast(key);
      if |key| == 1 {
        assert key[..0] == [];
      }
    }
  }

  /** The state after choosing compose container i at the prompt: the
      handler announces the switch, then jumps to that container. */
  function SwitchAfter(s: UiState, i: nat, refreshed: Option<seq<ContainerInfo>>): UiState
    requires i < |s.composeContainers|
  {
    var target := s.composeContainers[i];
    JumpAfter(s.(statusMsg := "Switching to container: " + target.name), target.id, refreshed)
  }

  /** The state after a key in the compose inspect view, as far as the prompt
      goes. */
  function PromptStep(s: UiState, key: string, refreshed: Option<seq<ContainerInfo>>): Step {
    var cc := s.composeContainers;
    match PromptActionOf(key, s.statusMsg, |cc|)
    case AskNumber => Step(s.(statusMsg := PromptMsg), Handled(None))
    case SwitchTo(i) => Step(SwitchAfter(s, i, refreshed), Handled(None))
    case OutOfRange(n) =>
      Step(s.(statusMsg := "Container " + IntToString(n) + " not found. Valid range: 1-" + NatToString(|cc|)),
           Handled(None))
    case Cancelled => Step(s.(statusMsg := CancelMsg), FallThrough)
    case NotPrompted => Step(s, FallThrough)
  }

  /** When the key picks compose container i, the prompt step is the switch
      to it. */
  lemma PromptStepSwitch(s: UiState, key: string, refreshed: Option<seq<ContainerInfo>>, i: nat)
    requires PromptActionOf(key, s.statusMsg, |s.composeContainers|) == SwitchTo(i)
    ensures i < |s.composeContainers|
    ensures PromptStep(s, key, refreshed) == Step(SwitchAfter(s, i, refreshed), Handled(None))
  {
  }

  // ---------------------------------------------------------------------
  // Status icons

  /** The state words looked for, in order, and the icon of each. */
  const StateWords: seq<string> := ["running", "exited", "created", "paused", "restarting", "dead"]
  const StateIcons: seq<string> :=
    ["\U{1F7E2} ", "\U{23F9}\U{FE0F}  ", "\U{1F195} ", "\U{23F8}\U{FE0F}  ", "\U{1F504} ", "\U{1F480} "]

  /** The status column of a container row: the state prefixed with the icon
      of the first matching word of the switch. */
  function StatusWithIcon(state: string): string {
    var lower := ToLower(state);
    if Contains(lower, "running") then StateIcons[0] + state
    else if Contains(lower, "exited") then StateIcons[1] + state
    else if Contains(lower, "created") then StateIcons[2] + state
    else if Contains(lower, "paused") then StateIcons[3] + state
    else if Contains(lower, "restarting") then StateIcons[4] + state
    else if Contains(lower, "dead") then StateIcons[5] + state
    else state
  }

  /** The first state word at or after `from` that the lowercased state contains. */
  function FirstStateWord(lower: string, from: nat): (r: Option<nat>)
    requires from <= |StateWords|
    decreases |StateWords| - from
    ensures r.Some? ==> from <= r.value < |StateWords| && Contains(lower, StateWords[r.value])
    ensures r.Some? ==> forall j :: from <= j < r.value ==> !Contains(lower, StateWords[j])
    ensures r.None? ==> forall j :: from <= j < |StateWords| ==> !Contains(lower, StateWords[j])
  {
    if from == |StateWords| then None
    else if Contains(lower, StateWords[from]) then Some(from)
    else FirstStateWord(lower, from + 1)
  }

  /** The icon is that of the first state word found, and a state containing
      none of the words is shown as it is. */
  lemma StatusIconIsFirstWord(state: string)
    ensures match FirstStateWord(ToLower(state), 0)
            case Some(k) => StatusWithIcon(state) == StateIcons[k] + state
            case None => StatusWithIcon(state) == state
  {
  }

  // ---------------------------------------------------------------------
  // formatBytes

  /** 1024 to the power e. */
  function Pow1024(e: nat): (p: nat)
    ensures p >= 1
  {
    if e == 0 then 1 else 1024 * Pow1024(e - 1)
  }

  const UnitLetters := "KMGTPE"

  /** What formatBytes prints: "<n> B", or bytes/div with one decimal and the
      unit letter of exp (the division is in floating point and left out). */
  datatype ByteSize = Plain(text: string) | Scaled(bytes: int, div: nat, exp: nat, unit: char)

  /** Multiplying by a non-negative factor keeps an order. */
  lemma MulMonotone(d: int, x: int, y: int)
    requires d >= 0 && x <= y
    ensures d * x <= d * y
  {
    assert d * y - d * x == d * (y - x);
  }

  /** One step of the formatBytes loop: with div*n <= bytes < div*n + div and
      n >= 1024, the same holds for div*1024 and n/1024. */
  lemma ScaleStep(bytes: int, div: int, n: int)
    requires div > 0 && n >= 1024 && div * n <= bytes < div * n + div
    ensures var m := n / 1024; m >= 1 && (div * 1024) * m <= bytes < (div * 1024) * m + div * 1024
  {
    var m := n / 1024;
    assert 1024 * m <= n < 1024 * m + 1024;
    MulMonotone(div, 1024 * m, n);
    MulMonotone(div, n, 1024 * m + 1023);
    assert div * (1024 * m) == (div * 1024) * m;
    assert div * (1024 * m + 1023) + div == (div * 1024) * m + div * 1024;
  }

  /** formatBytes: a value below 1024 (negative ones included) is printed in
      bytes; otherwise exp is the one for which 1024^(exp+1) <= bytes <
      1024^(exp+2), at most 5 for a 64-bit value, and picks the unit letter. */
  method FormatBytes(bytes: int) returns (size: ByteSize)
    requires -0x8000_0000_0000_0000 <= bytes < 0x8000_0000_0000_0000
    ensures bytes < 1024 ==> size == Plain(IntToString(bytes) + " B")
    ensures bytes >= 1024 ==>
              && size.Scaled? && size.bytes == bytes && size.exp <= 5 && size.unit == UnitLetters[size.exp]
              && size.div == Pow1024(size.exp + 1) && size.div <= bytes < Pow1024(size.exp + 2)
  {
    if bytes < 1024 {
      return Plain(IntToString(bytes) + " B");
    }
    var div: nat, exp: nat := 1024, 0;
    var n := bytes / 1024;
    while n >= 1024
      invariant exp <= 5 && div == Pow1024(exp + 1) && n >= 1
      invariant div * n <= bytes < div * n + div
      decreases n
    {
      ScaleStep(bytes, div, n);
      div, exp := div * 1024, exp + 1;
      n := n / 1024;
      MulMonotone(div, 1, n);
    }
    MulMonotone(div, 1, n);
    MulMonotone(div, n, 1023);
    return Scaled(bytes, div, exp, UnitLetters[exp]);
  }

  // ---------------------------------------------------------------------
  // fetchComposeServices

  /** The message shown for a failed service listing: three known failures are
      rewritten, matched in this order; any other message is shown as it is. */
  function FriendlyServicesError(errMsg: string, path: string): string {
    if Contains(errMsg, "no compose file found") then
      "No docker-compose.yml or compose.yaml file found in " + path
    else if Contains(errMsg, "failed to parse compose file") then
      "The compose file in " + path + " has invalid syntax"
    else if Contains(errMsg, "no services found") then
      "No services found in the compose file in " + path + ". Check if it has a 'services:' section."
    else errMsg
  }

  /** A sub-string is contained in any string that starts with it. */
  lemma ContainsPrefix(s: string, t: string, rest: string)
    requires s == t + rest
    ensures Contains(s, t)
  {
    assert OccursAt(s, t, 0);
  }

  /** A string with a character that does not occur in s is not contained in s. */
  lemma AbsentChar(s: string, t: string, k: nat)
    requires k < |t| && t[k] !in s
    ensures !Contains(s, t)
  {
    forall j | 0 <= j && j + |t| <= |s|
      ensures !OccursAt(s, t, j)
    {
      assert s[j..j + |t|][k] == s[j + k];
    }
  }

  /** The messages ListComposeServices fails with when no compose file is
      found and when the file cannot be parsed are the ones rewritten. */
  lemma FriendlyServicesErrors(projectPath: string, path: string)
    ensures FriendlyServicesError("no compose file found in path: " + projectPath, path)
              == "No docker-compose.yml or compose.yaml file found in " + path
    ensures FriendlyServicesError("failed to parse compose file", path)
              == "The compose file in " + path + " has invalid syntax"
  {
    ContainsPrefix("no compose file found in path: " + projectPath, "no compose file found", " in path: " + projectPath);
    AbsentChar("failed to parse compose file", "no compose file found", 0);
    ContainsPrefix("failed to parse compose file", "failed to parse compose file", "");
  }

  /** A character that occurs three times, between pieces free of it, occurs
      at those three positions only. */
  lemma CharOnlyAt(a: string, b: string, c: string, d: string, ch: char, i: nat)
    requires ch !in a && ch !in b && ch !in c && ch !in d
    requires i < |a + [ch] + b + [ch] + c + [ch] + d|
    ensures (a + [ch] + b + [ch] + c + [ch] + d)[i] == ch ==>
              i == |a| || i == |a| + 1 + |b| || i == |a| + |b| + |c| + 2
  {
    var s := a + [ch] + b + [ch] + c + [ch] + d;
    if i < |a| {
      assert s[i] == a[i];
    } else if |a| < i < |a| + 1 + |b| {
      assert s[i] == b[i - |a| - 1];
    } else if |a| + 1 + |b| < i < |a| + |b| + |c| + 2 {
      assert s[i] == c[i - |a| - |b| - 2];
    } else if |a| + |b| + |c| + 2 < i {
      assert s[i] == d[i - |a| - |b| - |c| - 3];
    }
  }

  /** A pattern whose `k`-th character `ch` occurs in `s` only at three known
      positions is absent when each of the three alignments that put `t[k]`
      on them disagrees with `t` at some index `m`. */
  lemma AbsentByAlignment(s: string, t: string, k: nat, m: nat, ch: char, a: string, b: string, c: string, d: string)
    requires ch !in a && ch !in b && ch !in c && ch !in d
    requires s == a + [ch] + b + [ch] + c + [ch] + d
    requires k < |t| && t[k] == ch && m < |t|
    requires k <= |a| && |a| - k + |t| <= |s| ==> s[|a| - k + m] != t[m]
    requires k <= |a| + 1 + |b| && |a| + 1 + |b| - k + |t| <= |s| ==> s[|a| + 1 + |b| - k + m] != t[m]
    requires k <= |a| + |b| + |c| + 2 && |a| + |b| + |c| + 2 - k + |t| <= |s| ==> s[|a| + |b| + |c| + 2 - k + m] != t[m]
    ensures !Contains(s, t)
  {
    forall j | 0 <= j && j + |t| <= |s|
      ensures !OccursAt(s, t, j)
    {
      assert s[j..j + |t|][k] == s[j + k];
      CharOnlyAt(a, b, c, d, ch, j + k);
      assert s[j..j + |t|][m] == s[j + m];
    }
  }

  /** The message ListComposeServices fails with when the file has no
      services map. */
  const NoServicesFailure := ComposeServices.NoServicesFailure

  /** It does not contain the first pattern: the 'f' of "no compose file
      found" is its twelfth character, and the offsets 1 and 18 that would
      line it up start with 'o' and 'i'. */
  lemma NoServicesFailureNotNoFile()
    ensures !Contains(NoServicesFailure, "no compose file found")
  {
    var a, b, c, d := "no services ", "ound in compose ", "ile or invalid ", "ormat";
    assert NoServicesFailure == a + ['f'] + b + ['f'] + c + ['f'] + d;
    assert NoServicesFailure[1] == a[1] && NoServicesFailure[18] == b[5];
    AbsentByAlignment(NoServicesFailure, "no compose file found", 11, 0, 'f', a, b, c, d);
  }

  /** It does not contain the second pattern: "failed to parse compose file"
      starts with 'f', and the offsets 12 and 29 go on with 'o' and 'i'. */
  lemma NoServicesFailureNotBadParse()
    ensures !Contains(NoServicesFailure, "failed to parse compose file")
  {
    var a, b, c, d := "no services ", "ound in compose ", "ile or invalid ", "ormat";
    assert NoServicesFailure == a + ['f'] + b + ['f'] + c + ['f'] + d;
    assert NoServicesFailure[13] == b[0] && NoServicesFailure[30] == c[0];
    AbsentByAlignment(NoServicesFailure, "failed to parse compose file", 0, 1, 'f', a, b, c, d);
  }

  /** It contains the third pattern, as its prefix. */
  lemma NoServicesFailureNoServices()
    ensures Contains(NoServicesFailure, "no services found")
  {
    var rest := " in compose " + "f" + "ile or invalid " + "f" + "ormat";
    assert "ound in compose " == "ound" + " in compose ";
    assert "no services found" == "no services " + "f" + "ound";
    ContainsPrefix(NoServicesFailure, "no services found", rest);
  }

  /** The message for a file without a services map contains neither earlier
      pattern and is rewritten by the third rule. */
  lemma FriendlyNoServicesError(path: string)
    ensures FriendlyServicesError(NoServicesFailure, path)
              == "No services found in the compose file in " + path + ". Check if it has a 'services:' section."
  {
    NoServicesFailureNotNoFile();
    NoServicesFailureNotBadParse();
    NoServicesFailureNoServices();
  }

  // ---------------------------------------------------------------------
  // The model

  /** FullModel, reduced to the fields the rules above read or write. */
  class FullModel {
    var currentTab: nat
    var currentMode: Mode
    var statusMsg: string
    var selectedID: string
    var selectedName: string
    var selectedPath: string
    var containers: seq<ContainerInfo>
    var images: seq<ImageInfo>
    var volumes: seq<VolumeInfo>
    var networks: seq<NetworkInfo>
    var composeProjects: seq<ComposeInfo>
    var composeContainers: seq<ContainerInfo>
    var containerTable: TableView
    var imageTable: TableView
    var volumeTable: TableView
    var networkTable: TableView
    var composeTable: TableView

    /** The value of the fields. */
    function State(): UiState
      reads this
    {
      UiState(currentTab, currentMode, statusMsg, selectedID, selectedName, selectedPath,
              containers, images, volumes, networks, composeProjects, composeContainers,
              containerTable, imageTable, volumeTable, networkTable, composeTable)
    }

    /** The current tab is one of the five tabs. */
    predicate Valid()
      reads this
    {
      currentTab < TabCount
    }

    /** NewFullModel: the Containers tab in ListMode, nothing loaded yet. */
    constructor ()
      ensures Valid()
      ensures State() == UiState(ContainersTab, ListMode, "Initializing...", "", "", "",
                                 [], [], [], [], [], [],
                                 TableView(0, 0), TableView(0, 0), TableView(0, 0), TableView(0, 0), TableView(0, 0))
    {
      currentTab, currentMode, statusMsg := ContainersTab, ListMode, "Initializing...";
      selectedID, selectedName, selectedPath := "", "", "";
      containers, images, volumes, networks := [], [], [], [];
      composeProjects, composeContainers := [], [];
      containerTable, imageTable, volumeTable := TableView(0, 0), TableView(0, 0), TableView(0, 0);
      networkTable, composeTable := TableView(0, 0), TableView(0, 0);
    }

    /** The NextTab key binding of Update. */
    method PressNextTab() returns (outcome: KeyOutcome)
      requires Valid()
      modifies this
      ensures Valid()
      ensures Step(State(), outcome) == NextTabStep(old(State()))
    {
      if currentMode == ListMode {
        var prevTab := currentTab;
        currentTab := (currentTab + 1) % TabCount;
        if prevTab != currentTab {
          return Handled(Some(TabFetch(currentTab)));
        }
        return Handled(None);
      }
      return FallThrough;
    }

    /** The PrevTab key binding of Update. */
    method PressPrevTab() returns (outcome: KeyOutcome)
      requires Valid()
      modifies this
      ensures Valid()
      ensures Step(State(), outcome) == PrevTabStep(old(State()))
    {
      if currentMode == ListMode {
        var prevTab := currentTab;
        currentTab := (currentTab - 1 + TabCount) % TabCount;
        if prevTab != currentTab {
          return Handled(Some(TabFetch(currentTab)));
        }
        return Handled(None);
      }
      return FallThrough;
    }

    /** The Back key binding of Update. */
    method PressBack() returns (outcome: KeyOutcome)
      requires Valid()
      modifies this
      ensures Valid()
      ensures Step(State(), outcome) == BackStep(old(State()))
    {
      if currentMode == MonitorMode {
        currentMode := ListMode;
        return Handled(Some(StopStatsRefresh));
      }
      if currentMode != ListMode {
        currentMode := ListMode;
        return Handled(None);
      }
      return FallThrough;
    }

    /** updateSelection. */
    method UpdateSelection()
      requires Valid()
      modifies this
      ensures Valid()
      ensures State() == SelectionAfter(old(State()))
    {
      var table := CurrentTable(State());
      if !RowSelected(table) {
        selectedID, selectedName, selectedPath := "", "", "";
        return;
      }
      var k := table.cursor;
      if currentTab == ContainersTab {
        if 0 < |containers| && k < |containers| {
          selectedID, selectedName := containers[k].id, containers[k].name;
        }
      } else if currentTab == ImagesTab {
        if 0 < |images| && k < |images| {
          selectedID, selectedName := images[k].id, "";
          if |images[k].repoTags| > 0 {
            selectedName := images[k].repoTags[0];
          }
        }
      } else if currentTab == VolumesTab {
        if 0 < |volumes| && k < |volumes| {
          selectedID, selectedName := volumes[k].name, volumes[k].name;
        }
      } else if currentTab == NetworksTab {
        if 0 < |networks| && k < |networks| {
          selectedID, selectedName := networks[k].id, networks[k].name;
        }
      } else if currentTab == ComposeTab {
        if 0 < |composeProjects| && k < |composeProjects| {
          SelectProject(k);
        }
      }
    }

    /** The Compose case of updateSelection, with its two search loops. */
    method SelectProject(k: nat)
      requires Valid()
      requires k < |composeProjects|
      modifies this
      ensures Valid()
      ensures State() == ComposeSelection(old(State()), k)
    {
      ghost var s0 := State();
      var p := composeProjects[k];
      selectedID, selectedName, selectedPath := p.name, p.name, p.path;
      ghost var chosen := State();
      assert chosen == s0.(selectedID := p.name, selectedName := p.name, selectedPath := p.path);
      if selectedPath == "" && selectedID != "" {
        var j := FindProject(composeProjects, NameIs(selectedID));
        if j.Some? {
          selectedPath := composeProjects[j.value].path;
          statusMsg := "Found project path: " + selectedPath;
        }
        ghost var named := State();
        assert named == (if j.Some? then chosen.(selectedPath := s0.composeProjects[j.value].path,
                                                  statusMsg := "Found project path: " + s0.composeProjects[j.value].path)
                         else chosen);
        if selectedPath == "" {
          var f := FindProject(composeProjects, HasPath);
          if f.Some? {
            var q := composeProjects[f.value];
            selectedPath := q.path;
            statusMsg := "Using fallback path from project " + q.name + ": " + q.path;
            assert State() == named.(selectedPath := q.path,
                                     statusMsg := "Using fallback path from project " + q.name + ": " + q.path);
          }
        }
      }
    }

    /** jumpToContainer, with the result of the container listing it starts
        with. */
    method JumpToContainer(id: string, refreshed: Option<seq<ContainerInfo>>)
      requires Valid()
      modifies this
      ensures Valid()
      ensures State() == JumpAfter(old(State()), id, refreshed)
    {
      ghost var s0 := State();
      if refreshed.Some? {
        containers := refreshed.value;
      }
      currentTab, currentMode := ContainersTab, ListMode;
      ghost var moved := State();
      assert moved == s0.(containers := containers, currentTab := ContainersTab, currentMode := ListMode);
      var found := FindJumpTarget(containers, composeContainers, id);
      SelectFound(found);
      assert State() == FoundAfter(moved, found);
    }

    /** The end of jumpToContainer, once the search is done. */
    method SelectFound(found: Option<nat>)
      requires Valid()
      requires found.Some? ==> found.value < |containers|
      modifies this
      ensures Valid()
      ensures State() == FoundAfter(old(State()), found)
    {
      if found.Some? {
        var name := containers[found.value].name;
        containerTable := SetCursor(containerTable, found.value);
        UpdateSelection();
        statusMsg := "Selected container: " + name;
      } else {
        statusMsg := "Container not found in main list. Try refreshing.";
      }
    }

    /** A key at the prompt that picks compose container i: announce the
        switch to that container, then jump to it. */
    method SwitchToNumbered(key: string, i: nat, refreshed: Option<seq<ContainerInfo>>)
      requires Valid()
      requires PromptActionOf(key, statusMsg, |composeContainers|) == SwitchTo(i)
      modifies this
      ensures Valid()
      ensures Step(State(), Handled(None)) == PromptStep(old(State()), key, refreshed)
    {
      ghost var s0 := State();
      PromptStepSwitch(s0, key, refreshed, i);
      var target := composeContainers[i];
      statusMsg := "Switching to container: " + target.name;
      assert State() == s0.(statusMsg := "Switching to container: " + target.name);
      JumpToContainer(target.id, refreshed);
    }

    /** The prompt part of a key in the compose inspect view. */
    method PromptKey(key: string, refreshed: Option<seq<ContainerInfo>>) returns (outcome: KeyOutcome)
      requires Valid()
      requires currentMode == InspectMode && currentTab == ComposeTab
      modifies this
      ensures Valid()
      ensures Step(State(), outcome) == PromptStep(old(State()), key, refreshed)
    {
      ghost var s0 := State();
      if key == "c" {
        statusMsg := PromptMsg;
        assert State() == s0.(statusMsg := PromptMsg);
        return Handled(None);
      }
      if statusMsg == PromptMsg {
        if LessEq("1", key) && LessEq(key, "9") {
          var num := Atoi(key);
          if num.Some? && 1 <= num.value <= 9 && num.value <= |composeContainers| {
            assert PromptActionOf(key, s0.statusMsg, |s0.composeContainers|) == SwitchTo(num.value - 1);
            SwitchToNumbered(key, num.value - 1, refreshed);
            return Handled(None);
          } else if num.Some? && 1 <= num.value <= 9 {
            statusMsg := "Container " + IntToString(num.value) + " not found. Valid range: 1-"
                         + NatToString(|composeContainers|);
            assert State() == s0.(statusMsg := statusMsg);
            assert PromptStep(s0, key, refreshed) == Step(State(), Handled(None));
            return Handled(None);
          }
        }
        statusMsg := CancelMsg;
        assert State() == s0.(statusMsg := CancelMsg);
        assert PromptStep(s0, key, refreshed) == Step(State(), FallThrough);
        return FallThrough;
      }
      assert PromptStep(s0, key, refreshed) == Step(s0, FallThrough);
      return FallThrough;
    }
  }
}
