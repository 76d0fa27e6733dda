/** The records of internal/docker/service.go and the pure mappers that turn
    Docker API records into them (ID shortening, "name (service)" display
    names).  Times, port lists and float/int statistics are not modelled. */
module DockerTypes {
  import opened Wrappers
  import opened GoStrings

  /** ContainerInfo: the container record shown by the UI. */
  datatype ContainerInfo = ContainerInfo(
    id: string, name: string, image: string, command: string, status: string, state: string)

  /** ComposeInfo: one compose project. */
  datatype ComposeInfo = ComposeInfo(
    name: string, path: string, services: seq<string>, status: string, configFiles: string)

  /** ComposeServiceInfo: one service of a compose file (the live-usage
      fields are not modelled). */
  datatype ComposeServiceInfo = ComposeServiceInfo(
    name: string, status: string, image: string, ports: seq<string>, containers: seq<string>)

  /** ImageInfo: one image (sizes and times are not modelled). */
  datatype ImageInfo = ImageInfo(id: string, repoTags: seq<string>)

  /** A container as the Docker API lists it. */
  datatype ApiContainer = ApiContainer(
    id: string, names: seq<string>, image: string, command: string,
    status: string, state: string, labels: map<string, string>)

  /** An image as the Docker API lists it. */
  datatype ApiImage = ApiImage(id: string, repoTags: seq<string>)

  /** Outcome of running an external command: it ran and exited 0 with some
      output, it ran and exited non-zero, or it could not be started. */
  datatype CmdResult = Ran(output: string) | ExitFailure(output: string) | StartFailure

  const ServiceLabel := "com.docker.compose.service"
  const ProjectLabel := "com.docker.compose.project"

  function ServiceInfoNamed(name: string): ComposeServiceInfo {
    ComposeServiceInfo(name, "", "", [], [])
  }

  /** The short container ID: at most the first 12 characters. */
  function ShortId(id: string): (r: string)
    ensures HasPrefix(id, r)
    ensures |r| == if |id| > 12 then 12 else |id|
  {
    if |id| > 12 then id[..12] else id
  }

  /** "name (service)" when the service is known, the bare name otherwise. */
  function WithService(name: string, service: string): (r: string)
    ensures service == "" ==> r == name
    ensures service != "" ==> HasPrefix(r, name + " (") && HasSuffix(r, service + ")")
  {
    if service != "" then name + " (" + service + ")" else name
  }

  /** Every API name starts with "/"; the first name without it.  The source
      slices `Names[0][1:]`, which Docker never hands it empty. */
  predicate NamesWellFormed(names: seq<string>) {
    |names| > 0 ==> names[0] != ""
  }

  function ApiName(names: seq<string>): (r: string)
    requires NamesWellFormed(names)
    ensures |names| == 0 ==> r == ""
    ensures |names| > 0 ==> names[0] == [names[0][0]] + r
  {
    if |names| > 0 then names[0][1..] else ""
  }

  /** One container of ListContainers. */
  function ContainerFromApi(c: ApiContainer): (r: ContainerInfo)
    requires NamesWellFormed(c.names)
    ensures |r.id| <= 12 && HasPrefix(c.id, r.id)
    ensures r.name == ApiName(c.names)
    ensures r.image == c.image && r.command == c.command && r.status == c.status && r.state == c.state
  {
    ContainerInfo(ShortId(c.id), ApiName(c.names), c.image, c.command, c.status, c.state)
  }

  /** One container of getContainersByProjectName: as ContainerFromApi, with
      the compose service label appended to the name. */
  function ContainerFromLabelled(c: ApiContainer): (r: ContainerInfo)
    requires NamesWellFormed(c.names)
    ensures r.id == ContainerFromApi(c).id
    ensures ServiceLabel in c.labels && c.labels[ServiceLabel] != "" ==>
              r.name == ApiName(c.names) + " (" + c.labels[ServiceLabel] + ")"
    ensures !(ServiceLabel in c.labels && c.labels[ServiceLabel] != "") ==> r == ContainerFromApi(c)
  {
    var service := if ServiceLabel in c.labels then c.labels[ServiceLabel] else "";
    ContainerFromApi(c).(name := WithService(ApiName(c.names), service))
  }

  /** The source slices `id[7:19]` for a long "sha256:" ID, which Docker
      always gives as 71 characters. */
  predicate ImageIdWellFormed(id: string) {
    |id| > 12 && HasPrefix(id, "sha256:") ==> |id| >= 19
  }

  /** The short image ID of ListImages. */
  function ImageShortId(id: string): (r: string)
    requires ImageIdWellFormed(id)
    ensures |r| <= 12
    ensures !HasPrefix(id, "sha256:") ==> r == ShortId(id)
    ensures |id| <= 12 ==> r == id
  {
    if |id| > 12 then
      if |id| > 7 && id[..7] == "sha256:" then id[7..19] else id[..12]
    else id
  }

  /** A digest ID loses its "sha256:" prefix and keeps 12 hex digits. */
  lemma ImageShortIdOfDigest(hex: string)
    requires |hex| >= 12
    ensures ImageShortId("sha256:" + hex) == hex[..12]
  {
    var id := "sha256:" + hex;
    assert id[..7] == "sha256:";
    assert id[7..19] == hex[..12];
  }

  function ImageFromApi(img: ApiImage): (r: ImageInfo)
    requires ImageIdWellFormed(img.id)
    ensures r.id == ImageShortId(img.id) && |r.id| <= 12
    ensures |r.repoTags| > 0
    ensures |img.repoTags| > 0 ==> r.repoTags == img.repoTags
    ensures |img.repoTags| == 0 ==> r.repoTags == ["<none>:<none>"]
  {
    ImageInfo(ImageShortId(img.id), if |img.repoTags| == 0 then ["<none>:<none>"] else img.repoTags)
  }

  /** ListContainers: map every API container, in order; a client error is
      passed through. */
  method ListContainers(listed: Result<seq<ApiContainer>, string>)
    returns (r: Result<seq<ContainerInfo>, string>)
    requires listed.Success? ==> forall c :: c in listed.value ==> NamesWellFormed(c.names)
    ensures listed.Failure? ==> r == Failure(listed.error)
    ensures listed.Success? ==> r.Success? && |r.value| == |listed.value|
    ensures listed.Success? ==> forall k :: 0 <= k < |r.value| ==> r.value[k] == ContainerFromApi(listed.value[k])
  {
    if listed.Failure? {
      return Failure(listed.error);
    }
    var raw := listed.value;
    var infos: seq<ContainerInfo> := [];
    for k := 0 to |raw|
      invariant |infos| == k
      invariant forall j :: 0 <= j < k ==> infos[j] == ContainerFromApi(raw[j])
    {
      infos := infos + [ContainerFromApi(raw[k])];
    }
    return Success(infos);
  }

  /** ListImages: map every API image, in order. */
  method ListImages(listed: Result<seq<ApiImage>, string>)
    returns (r: Result<seq<ImageInfo>, string>)
    requires listed.Success? ==> forall img :: img in listed.value ==> ImageIdWellFormed(img.id)
    ensures listed.Failure? ==> r == Failure(listed.error)
    ensures listed.Success? ==> r.Success? && |r.value| == |listed.value|
    ensures listed.Success? ==> forall k :: 0 <= k < |r.value| ==> r.value[k] == ImageFromApi(listed.value[k])
  {
    if listed.Failure? {
      return Failure(listed.error);
    }
    var raw := listed.value;
    var infos: seq<ImageInfo> := [];
    for k := 0 to |raw|
      invariant |infos| == k
      invariant forall j :: 0 <= j < k ==> infos[j] == ImageFromApi(raw[j])
    {
      infos := infos + [ImageFromApi(raw[k])];
    }
    return Success(infos);
  }
}
