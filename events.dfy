/** HandleDockerEvent in internal/ui/events.go: the status line written for a
    Docker event and the refresh commands it triggers. */
module Events {
  import opened Wrappers
  import opened FullModelUi

  /** The fields of a Docker event that the handler reads. */
  datatype DockerEvent = DockerEvent(eventType: string, action: string, id: string)

  /** The status line for an event. */
  function EventStatus(e: DockerEvent): string {
    "Docker event: " + e.action + " " + e.eventType + " for " + e.id
  }

  /** The refresh for the resource kind an event is about, if it is one of
      the four the switch knows. */
  function RefreshFor(eventType: string): (c: Option<Command>)
    ensures c.Some? <==> eventType in {"container", "image", "volume", "network"}
    ensures eventType == "container" ==> c == Some(FetchContainers)
    ensures eventType == "image" ==> c == Some(FetchImages)
    ensures eventType == "volume" ==> c == Some(FetchVolumes)
    ensures eventType == "network" ==> c == Some(FetchNetworks)
  {
    if eventType == "container" then Some(FetchContainers)
    else if eventType == "image" then Some(FetchImages)
    else if eventType == "volume" then Some(FetchVolumes)
    else if eventType == "network" then Some(FetchNetworks)
    else None
  }

  /** The event concerns the container being monitored. */
  predicate ConcernsMonitored(e: DockerEvent, mode: Mode, selectedID: string) {
    mode == MonitorMode && selectedID == e.id
  }

  /** The commands the handler returns: the refresh, then the stats fetch. */
  function EventCommands(e: DockerEvent, mode: Mode, selectedID: string): seq<Command> {
    (if RefreshFor(e.eventType).Some? then [RefreshFor(e.eventType).value] else [])
    + (if ConcernsMonitored(e, mode, selectedID) then [FetchStats] else [])
  }

  /** At most two commands: a refresh exactly for the four resource kinds,
      first when present, and a stats fetch exactly when the monitored
      container is the one the event is about, always last. */
  lemma EventCommandsShape(e: DockerEvent, mode: Mode, selectedID: string)
    ensures var cmds := EventCommands(e, mode, selectedID);
            && |cmds| <= 2
            && (FetchStats in cmds <==> ConcernsMonitored(e, mode, selectedID))
            && (FetchStats in cmds ==> cmds[|cmds| - 1] == FetchStats)
            && (RefreshFor(e.eventType).Some? <==> |cmds| >= 1 && cmds[0] != FetchStats)
            && (RefreshFor(e.eventType).Some? ==> cmds[0] == RefreshFor(e.eventType).value)
            && forall c :: c in cmds && c != FetchStats ==> Some(c) == RefreshFor(e.eventType)
  {
  }

  /** HandleDockerEvent: the status line is written, nothing else in the
      model changes, and the commands are appended in order. */
  method HandleDockerEvent(model: FullModel, event: DockerEvent) returns (cmds: seq<Command>)
    modifies model
    ensures model.State() == old(model.State()).(statusMsg := EventStatus(event))
    ensures cmds == EventCommands(event, old(model.currentMode), old(model.selectedID))
  {
    cmds := [];
    model.statusMsg := "Docker event: " + event.action + " " + event.eventType + " for " + event.id;
    if event.eventType == "container" {
      cmds := cmds + [FetchContainers];
    } else if event.eventType == "image" {
      cmds := cmds + [FetchImages];
    } else if event.eventType == "volume" {
      cmds := cmds + [FetchVolumes];
    } else if event.eventType == "network" {
      cmds := cmds + [FetchNetworks];
    }
    if model.currentMode == MonitorMode && model.selectedID == event.id {
      cmds := cmds + [FetchStats];
    }
  }
}
