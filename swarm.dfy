/**
 * The Docker Swarm side of the bootstrap: the service specification the code
 * submits, and an abstract orchestrator holding the one Traefik service.
 */
module Swarm {
  import opened Wrappers

  /** One entry of `EndpointSpec.Ports`; `protocol` is None where the spec literal leaves it out. */
  datatype PortConfig = PortConfig(targetPort: int, publishedPort: int, publishMode: string, protocol: Option<string>)

  datatype Mount = Mount(kind: string, source: string, target: string)

  /** `TaskTemplate.ContainerSpec`; `env` is None when `Env` is undefined. */
  datatype ContainerSpec = ContainerSpec(image: string, env: Option<seq<string>>, mounts: seq<Mount>)

  /** `TaskTemplate`: container, network targets and placement constraints. */
  datatype TaskTemplate = TaskTemplate(containerSpec: ContainerSpec, networks: seq<string>, constraints: seq<string>)

  datatype ServiceSpec = ServiceSpec(
    name: string,
    taskTemplate: TaskTemplate,
    replicas: nat,
    labels: map<string, string>,
    ports: seq<PortConfig>)

  /** What `service.inspect()` reports: the current spec and `Version.Index`. */
  datatype LiveService = LiveService(spec: ServiceSpec, version: nat)

  /** A call the bootstrap code makes on the orchestrator. */
  datatype Request =
    | UpdateRequest(version: nat, spec: ServiceSpec)
    | CreateRequest(spec: ServiceSpec)

  /**
   * The orchestrator as the bootstrap code sees it: the Traefik service is
   * present (with a version) or absent. Every accepted write takes the next
   * value of a global index as the service's new version, so versions only
   * grow. `requests` records every call made, accepted or not.
   */
  class Orchestrator {
    var live: Option<LiveService>
    var index: nat
    var requests: seq<Request>

    ghost predicate Valid()
      reads this
    {
      live.Some? ==> live.value.version <= index
    }

    constructor (live0: Option<LiveService>, index0: nat)
      requires live0.Some? ==> live0.value.version <= index0
      ensures Valid()
      ensures live == live0 && index == index0 && requests == []
    {
      live := live0;
      index := index0;
      requests := [];
    }

    /** `service.inspect()`: the live service, None when inspecting fails because it does not exist. */
    method Inspect() returns (r: Option<LiveService>)
      ensures r == live
    {
      r := live;
    }

    /**
     * `service.update({version, ...spec})`: accepted when the orchestrator can
     * be reached, the service exists and `version` is its current version
     * (optimistic concurrency); otherwise the call throws and nothing changes.
     */
    method Update(version: nat, spec: ServiceSpec, reachable: bool) returns (ok: bool)
      requires Valid()
      modifies this
      ensures Valid()
      ensures ok <==> reachable && old(live).Some? && old(live).value.version == version
      ensures requests == old(requests) + [UpdateRequest(version, spec)]
      ensures ok ==> index == old(index) + 1 && live == Some(LiveService(spec, index))
      ensures ok ==> old(live).value.version < live.value.version
      ensures !ok ==> index == old(index) && live == old(live)
    {
      requests := requests + [UpdateRequest(version, spec)];
      ok := reachable && live.Some? && live.value.version == version;
      if ok {
        index := index + 1;
        live := Some(LiveService(spec, index));
      }
    }

    /**
     * `docker.createService(spec)`: accepted when the orchestrator can be
     * reached and no service of that name exists; otherwise the call throws
     * and nothing changes.
     */
    method Create(spec: ServiceSpec, reachable: bool) returns (ok: bool)
      requires Valid()
      modifies this
      ensures Valid()
      ensures ok <==> reachable && old(live).None?
      ensures requests == old(requests) + [CreateRequest(spec)]
      ensures ok ==> index == old(index) + 1 && live == Some(LiveService(spec, index))
      ensures !ok ==> index == old(index) && live == old(live)
    {
      requests := requests + [CreateRequest(spec)];
      ok := reachable && live.None?;
      if ok {
        index := index + 1;
        live := Some(LiveService(spec, index));
      }
    }
  }
}
