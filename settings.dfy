/**
 * The settings handlers that carry logic of their own: the port detectors,
 * the access-log toggle and its detector, the docker-cleanup job, the
 * Traefik toggles that forward flags to the bootstrap, and the guard of
 * `assignDomainServer`.
 */
module Settings {
  import opened Wrappers
  import opened JsonTree
  import opened Swarm
  import opened Files
  import opened TraefikSetup

  // ---------------------------------------------------------------------
  // Port detectors

  /** Some published port is 8080. */
  predicate DashboardPortPublished(ports: seq<PortConfig>)
  {
    exists i :: 0 <= i < |ports| && ports[i].publishedPort == 8080
  }

  /** Some published port is UDP 443. */
  predicate Http3PortPublished(ports: seq<PortConfig>)
  {
    exists i :: 0 <= i < |ports| && ports[i].protocol == Some("udp") && ports[i].publishedPort == 443
  }

  /** `haveTraefikDashboardPortEnabled`, over the service's parsed `Endpoint.Ports`. */
  method HaveTraefikDashboardPortEnabled(ports: seq<PortConfig>) returns (r: bool)
    ensures r <==> DashboardPortPublished(ports)
  {
    for i := 0 to |ports|
      invariant forall j :: 0 <= j < i ==> ports[j].publishedPort != 8080
    {
      if ports[i].publishedPort == 8080 {
        return true;
      }
    }
    return false;
  }

  /** `haveTraefikHTTP3Enabled`, over the service's parsed `Endpoint.Ports`. */
  method HaveTraefikHTTP3Enabled(ports: seq<PortConfig>) returns (r: bool)
    ensures r <==> Http3PortPublished(ports)
  {
    for i := 0 to |ports|
      invariant forall j :: 0 <= j < i ==> !(ports[j].protocol == Some("udp") && ports[j].publishedPort == 443)
    {
      if ports[i].protocol == Some("udp") && ports[i].publishedPort == 443 {
        return true;
      }
    }
    return false;
  }

  /**
   * On the bootstrap's port list the dashboard detector answers the
   * dashboard flag, except that a TLS or web port configured as 8080 also
   * reads as the dashboard.
   */
  lemma DashboardDetectorAgreesWithBuilder(enableHTTP3: bool, enableDashboard: bool, ssl: int, plain: int)
    ensures DashboardPortPublished(PublishedPorts(enableHTTP3, enableDashboard, ssl, plain))
            <==> enableDashboard || ssl == 8080 || plain == 8080
  {
    var r := PublishedPorts(enableHTTP3, enableDashboard, ssl, plain);
    PublishedPortsOrder(enableHTTP3, enableDashboard, ssl, plain);
    var k := if enableHTTP3 then 1 else 0;
    if enableDashboard {
      assert r[k + 2].publishedPort == 8080;
    } else if ssl == 8080 {
      assert r[k].publishedPort == 8080;
    } else if plain == 8080 {
      assert r[k + 1].publishedPort == 8080;
    } else {
      forall i | 0 <= i < |r| ensures r[i].publishedPort != 8080 {
        assert i == 0 || i == k || i == k + 1;
      }
    }
  }

  /**
   * On the bootstrap's port list the HTTP/3 detector answers the HTTP/3 flag
   * only when the TLS port is 443, since the detector looks for 443 itself.
   */
  lemma Http3DetectorAgreesWithBuilder(enableHTTP3: bool, enableDashboard: bool, ssl: int, plain: int)
    ensures Http3PortPublished(PublishedPorts(enableHTTP3, enableDashboard, ssl, plain))
            <==> enableHTTP3 && ssl == 443
  {
    var r := PublishedPorts(enableHTTP3, enableDashboard, ssl, plain);
    PublishedPortsOrder(enableHTTP3, enableDashboard, ssl, plain);
    var k := if enableHTTP3 then 1 else 0;
    if enableHTTP3 && ssl == 443 {
      assert r[0].protocol == Some("udp") && r[0].publishedPort == 443;
    } else {
      forall i | 0 <= i < |r| ensures !(r[i].protocol == Some("udp") && r[i].publishedPort == 443) {
        assert (enableHTTP3 && i == 0) || i == k || i == k + 1 || (enableDashboard && i == k + 2);
      }
    }
  }

  // ---------------------------------------------------------------------
  // Access log

  const AccessLogFilePath := "/etc/dokploy/traefik/dynamic/access.log"

  /** The `accessLog` section `toggleRequests` installs. */
  const AccessLog := JObj(map[
    "filePath" := JStr(AccessLogFilePath),
    "format" := JStr("json"),
    "bufferingSize" := JNum(100),
    "filters" := JObj(map["retryAttempts" := JBool(true), "minDuration" := JStr("10ms")])])

  /** `!!config?.accessLog?.filePath`. */
  predicate AccessLogEnabled(config: Json)
  {
    match At(config, ["accessLog", "filePath"])
    case Some(filePath) => Truthy(filePath)
    case None => false
  }

  /** `haveActivateRequests`: the main configuration exists and logs requests. */
  predicate HaveActivateRequests(store: FileStore, paths: Paths)
    reads store
  {
    MainConfigPath(paths) in store.files && AccessLogEnabled(store.files[MainConfigPath(paths)])
  }

  /** The error JavaScript raises when `toggleRequests` assigns a property on a non-object. */
  datatype JsError = TypeError

  /**
   * `currentConfig.accessLog = ...` (or `= undefined`) on the loaded main
   * configuration, as the file then reads back: a mapping gains or loses
   * its `accessLog` key and keeps every other key; an array is written
   * back as it was, since the dump ignores its named properties; any other
   * value throws.
   */
  function SetAccessLog(config: Json, enable: bool): (r: Result<Json, JsError>)
    ensures config.JObj? ==>
              && r.Success? && r.value.JObj?
              && r.value.fields.Keys == (if enable then config.fields.Keys + {"accessLog"} else config.fields.Keys - {"accessLog"})
              && (forall k :: k in config.fields && k != "accessLog" ==> r.value.fields[k] == config.fields[k])
              && (enable ==> r.value.fields["accessLog"] == AccessLog)
    ensures config.JArr? ==> r == Success(config)
    ensures !config.JObj? && !config.JArr? ==> r == Failure(TypeError)
  {
    match config
    case JObj(fields) =>
      Success(JObj(if enable then fields["accessLog" := AccessLog] else fields - {"accessLog"}))
    case JArr(_) => Success(config)
    case _ => Failure(TypeError)
  }

  /** After a successful toggle the detector reports the toggled value on a mapping, and false on an array. */
  lemma ToggleThenDetect(config: Json, enable: bool)
    requires SetAccessLog(config, enable).Success?
    ensures AccessLogEnabled(SetAccessLog(config, enable).value) == (enable && config.JObj?)
  {
    var next := SetAccessLog(config, enable).value;
    AtCons(next, "accessLog", ["filePath"]);
    assert ["accessLog"] + ["filePath"] == ["accessLog", "filePath"];
    if config.JObj? && enable {
      assert Get(next, "accessLog") == Some(AccessLog);
      assert At(AccessLog, ["filePath"]) == Some(JStr(AccessLogFilePath));
    }
  }

  /** Enabling then disabling the access log leaves the document as disabling alone would. */
  lemma ToggleSymmetry(config: Json)
    requires SetAccessLog(config, true).Success?
    ensures SetAccessLog(SetAccessLog(config, true).value, false) == SetAccessLog(config, false)
  {
    if config.JObj? {
      var fields := config.fields;
      assert fields["accessLog" := AccessLog] - {"accessLog"} == fields - {"accessLog"};
    }
  }

  /** Toggling to the same value twice is the same as toggling once. */
  lemma ToggleIdempotent(config: Json, enable: bool)
    requires SetAccessLog(config, enable).Success?
    ensures SetAccessLog(SetAccessLog(config, enable).value, enable) == SetAccessLog(config, enable)
  {
    if config.JObj? {
      var fields := config.fields;
      assert fields["accessLog" := AccessLog]["accessLog" := AccessLog] == fields["accessLog" := AccessLog];
      assert fields - {"accessLog"} - {"accessLog"} == fields - {"accessLog"};
    }
  }

  /**
   * `toggleRequests`: without a main configuration returns false and writes
   * nothing; otherwise rewrites it with the access log set or cleared and
   * returns true, unless the assignment throws.
   */
  method ToggleRequests(store: FileStore, paths: Paths, enable: bool) returns (r: Result<bool, JsError>)
    modifies store
    ensures store.restricted == old(store.restricted)
    ensures MainConfigPath(paths) !in old(store.files) ==> r == Success(false) && store.files == old(store.files)
    ensures MainConfigPath(paths) in old(store.files) ==>
              var next := SetAccessLog(old(store.files)[MainConfigPath(paths)], enable);
              && (next.Success? ==> r == Success(true) && store.files == old(store.files)[MainConfigPath(paths) := next.value])
              && (next.Failure? ==> r == Failure(next.error) && store.files == old(store.files))
    ensures r == Success(true) ==>
              (HaveActivateRequests(store, paths) <==> enable && old(store.files)[MainConfigPath(paths)].JObj?)
  {
    var mainConfig := MainConfigPath(paths);
    if !store.Exists(mainConfig) {
      return Success(false);
    }
    var currentConfig := store.files[mainConfig];
    var next := SetAccessLog(currentConfig, enable);
    if next.Failure? {
      return Failure(next.error);
    }
    store.Write(mainConfig, next.value);
    ToggleThenDetect(currentConfig, enable);
    return Success(true);
  }

  // ---------------------------------------------------------------------
  // Docker cleanup job

  /** A job registered with the scheduler; `id` tells two registrations of one name apart. */
  datatype Job = Job(id: nat, name: string, rule: string)

  /**
   * The scheduler's registry: `scheduledJobs` maps a name to the job last
   * registered under it, and `active` holds every registration not yet
   * cancelled. Registering a taken name replaces the registry entry but
   * leaves the earlier registration active.
   */
  class Scheduler {
    var scheduledJobs: map<string, Job>
    var active: set<Job>
    var nextId: nat

    ghost predicate Valid()
      reads this
    {
      && (forall n :: n in scheduledJobs ==> scheduledJobs[n].name == n && scheduledJobs[n] in active)
      && (forall j :: j in active ==> j.id < nextId)
    }

    constructor ()
      ensures Valid()
      ensures scheduledJobs == map[] && active == {}
    {
      scheduledJobs := map[];
      active := {};
      nextId := 0;
    }

    /** `scheduleJob(name, rule, callback)`. */
    method ScheduleJob(name: string, rule: string) returns (job: Job)
      requires Valid()
      modifies this
      ensures Valid()
      ensures job.name == name && job.rule == rule && job !in old(active)
      ensures active == old(active) + {job}
      ensures scheduledJobs == old(scheduledJobs)[name := job]
    {
      job := Job(nextId, name, rule);
      nextId := nextId + 1;
      active := active + {job};
      scheduledJobs := scheduledJobs[name := job];
    }

    /** `scheduledJobs[name]?.cancel()`: stops the job registered under `name`, if any, and unregisters it. */
    method CancelJob(name: string)
      requires Valid()
      modifies this
      ensures Valid()
      ensures scheduledJobs == old(scheduledJobs) - {name}
      ensures active == if name in old(scheduledJobs) then old(active) - {old(scheduledJobs)[name]} else old(active)
    {
      if name in scheduledJobs {
        active := active - {scheduledJobs[name]};
        scheduledJobs := scheduledJobs - {name};
      }
    }
  }

  const DockerCleanupName := "docker-cleanup"
  const DockerCleanupRule := "0 0 * * *"

  /**
   * `updateDockerCleanup`, with the administrator's stored flag equal to
   * `enableDockerCleanup` once it is saved: registers the nightly job when
   * enabled, cancels it when disabled.
   */
  method UpdateDockerCleanup(s: Scheduler, enableDockerCleanup: bool) returns (r: bool)
    requires s.Valid()
    modifies s
    ensures s.Valid() && r
    ensures enableDockerCleanup ==>
              && DockerCleanupName in s.scheduledJobs
              && s.scheduledJobs[DockerCleanupName].rule == DockerCleanupRule
              && s.scheduledJobs[DockerCleanupName] !in old(s.active)
              && s.active == old(s.active) + {s.scheduledJobs[DockerCleanupName]}
              && s.scheduledJobs == old(s.scheduledJobs)[DockerCleanupName := s.scheduledJobs[DockerCleanupName]]
    ensures !enableDockerCleanup ==>
              && s.scheduledJobs == old(s.scheduledJobs) - {DockerCleanupName}
              && (DockerCleanupName in old(s.scheduledJobs) ==> s.active == old(s.active) - {old(s.scheduledJobs)[DockerCleanupName]})
              && (DockerCleanupName !in old(s.scheduledJobs) ==> s.active == old(s.active))
  {
    if enableDockerCleanup {
      var job := s.ScheduleJob(DockerCleanupName, DockerCleanupRule);
    } else {
      s.CancelJob(DockerCleanupName);
    }
    return true;
  }

  // ---------------------------------------------------------------------
  // Forwarding to the bootstrap

  /** `toggleDashboard` passes only `enableDashboard`. */
  function ToggleDashboardOptions(enableDashboard: bool): TraefikOptions
  {
    DefaultOptions.(enableDashboard := enableDashboard)
  }

  /** `toggleHTTP3` passes only `enableHTTP3`. */
  function ToggleHttp3Options(enableHTTP3: bool): TraefikOptions
  {
    DefaultOptions.(enableHTTP3 := enableHTTP3)
  }

  /** `writeTraefikEnv` passes only `env`. */
  function WriteTraefikEnvOptions(envs: seq<string>): TraefikOptions
  {
    DefaultOptions.(env := Some(envs))
  }

  /**
   * `toggleDashboard` drops the HTTP/3 port, keeps the live env, and
   * publishes the dashboard port as asked (when neither configured port is
   * 8080; otherwise port 8080 is published whatever is asked).
   */
  lemma ToggleDashboardForwarding(live: Option<LiveService>, env: ProcessEnv, paths: Paths, enableDashboard: bool,
                                  pulled: bool, reachable: bool)
    ensures var opts := ToggleDashboardOptions(enableDashboard);
            var rs := InitRequests(live, DesiredSpec(env, paths, opts), opts.env, pulled, reachable);
            && (forall i :: 0 <= i < |rs| ==>
                  && !Http3PortPublished(rs[i].spec.ports)
                  && (SslPort(env) != 8080 && TraefikPort(env) != 8080 ==>
                        (DashboardPortPublished(rs[i].spec.ports) <==> enableDashboard)))
            && (rs[0].UpdateRequest? ==>
                  rs[0].spec.taskTemplate.containerSpec.env
                  == Some(if live.value.spec.taskTemplate.containerSpec.env.Some? then live.value.spec.taskTemplate.containerSpec.env.value else []))
  {
    DashboardDetectorAgreesWithBuilder(false, enableDashboard, SslPort(env), TraefikPort(env));
    Http3DetectorAgreesWithBuilder(false, enableDashboard, SslPort(env), TraefikPort(env));
  }

  /**
   * `toggleHTTP3` drops the dashboard port (when neither configured port is
   * 8080), publishes UDP on the TLS port as asked, and keeps the live env.
   */
  lemma ToggleHttp3Forwarding(live: Option<LiveService>, env: ProcessEnv, paths: Paths, enableHTTP3: bool,
                              pulled: bool, reachable: bool)
    ensures var opts := ToggleHttp3Options(enableHTTP3);
            var rs := InitRequests(live, DesiredSpec(env, paths, opts), opts.env, pulled, reachable);
            && (forall i :: 0 <= i < |rs| ==>
                  && (SslPort(env) != 8080 && TraefikPort(env) != 8080 ==> !DashboardPortPublished(rs[i].spec.ports))
                  && (Http3PortPublished(rs[i].spec.ports) <==> enableHTTP3 && SslPort(env) == 443))
            && (rs[0].UpdateRequest? ==>
                  rs[0].spec.taskTemplate.containerSpec.env
                  == Some(if live.value.spec.taskTemplate.containerSpec.env.Some? then live.value.spec.taskTemplate.containerSpec.env.value else []))
  {
    DashboardDetectorAgreesWithBuilder(enableHTTP3, false, SslPort(env), TraefikPort(env));
    Http3DetectorAgreesWithBuilder(enableHTTP3, false, SslPort(env), TraefikPort(env));
  }

  /**
   * `writeTraefikEnv` installs exactly the given env, in the update and in
   * the create alike, and, passing neither flag, drops the dashboard and
   * HTTP/3 ports.
   */
  lemma WriteTraefikEnvForwarding(live: Option<LiveService>, env: ProcessEnv, paths: Paths, envs: seq<string>,
                                  pulled: bool, reachable: bool)
    ensures var opts := WriteTraefikEnvOptions(envs);
            var rs := InitRequests(live, DesiredSpec(env, paths, opts), opts.env, pulled, reachable);
            forall i :: 0 <= i < |rs| ==>
              && rs[i].spec.taskTemplate.containerSpec.env == Some(envs)
              && !Http3PortPublished(rs[i].spec.ports)
              && (SslPort(env) != 8080 && TraefikPort(env) != 8080 ==> !DashboardPortPublished(rs[i].spec.ports))
  {
    DashboardDetectorAgreesWithBuilder(false, false, SslPort(env), TraefikPort(env));
    Http3DetectorAgreesWithBuilder(false, false, SslPort(env), TraefikPort(env));
  }

  /** `toggleDashboard`: the bootstrap with only `enableDashboard` passed. */
  method ToggleDashboard(o: Orchestrator, env: ProcessEnv, paths: Paths, enableDashboard: bool,
                         pulled: bool, reachable: bool, createReachable: bool) returns (outcome: InitOutcome)
    requires o.Valid()
    modifies o
    ensures o.Valid()
    ensures o.requests == old(o.requests)
              + InitRequests(old(o.live), DesiredSpec(env, paths, ToggleDashboardOptions(enableDashboard)), None, pulled, reachable)
    ensures outcome == CreateRejected <==> !(pulled && reachable && old(o.live).Some?) && !(old(o.live).None? && createReachable)
    ensures outcome == Updated <==> pulled && reachable && old(o.live).Some?
    ensures outcome == Created <==> old(o.live).None? && createReachable
    ensures outcome == Updated ==> o.live == Some(LiveService(UpdatedSpec(DesiredSpec(env, paths, ToggleDashboardOptions(enableDashboard)), old(o.live).value, None), o.index))
    ensures outcome == Created ==> o.live == Some(LiveService(DesiredSpec(env, paths, ToggleDashboardOptions(enableDashboard)), o.index))
    ensures outcome != CreateRejected ==> o.live.Some? && o.live.value.spec.ports == DesiredSpec(env, paths, ToggleDashboardOptions(enableDashboard)).ports
    ensures outcome == Updated ==> o.live.value.spec.taskTemplate.containerSpec.env == Some(if old(o.live).value.spec.taskTemplate.containerSpec.env.Some? then old(o.live).value.spec.taskTemplate.containerSpec.env.value else [])
    ensures outcome != CreateRejected ==> o.index == old(o.index) + 1
    ensures outcome == CreateRejected ==> o.live == old(o.live) && o.index == old(o.index)
  {
    outcome := InitializeTraefik(o, env, paths, ToggleDashboardOptions(enableDashboard), pulled, reachable, createReachable);
  }

  /** `toggleHTTP3`: the bootstrap with only `enableHTTP3` passed. */
  method ToggleHttp3(o: Orchestrator, env: ProcessEnv, paths: Paths, enableHTTP3: bool,
                     pulled: bool, reachable: bool, createReachable: bool) returns (outcome: InitOutcome)
    requires o.Valid()
    modifies o
    ensures o.Valid()
    ensures o.requests == old(o.requests)
              + InitRequests(old(o.live), DesiredSpec(env, paths, ToggleHttp3Options(enableHTTP3)), None, pulled, reachable)
    ensures outcome == CreateRejected <==> !(pulled && reachable && old(o.live).Some?) && !(old(o.live).None? && createReachable)
    ensures outcome == Updated <==> pulled && reachable && old(o.live).Some?
    ensures outcome == Created <==> old(o.live).None? && createReachable
    ensures outcome == Updated ==> o.live == Some(LiveService(UpdatedSpec(DesiredSpec(env, paths, ToggleHttp3Options(enableHTTP3)), old(o.live).value, None), o.index))
    ensures outcome == Created ==> o.live == Some(LiveService(DesiredSpec(env, paths, ToggleHttp3Options(enableHTTP3)), o.index))
    ensures outcome != CreateRejected ==> o.live.Some? && o.live.value.spec.ports == DesiredSpec(env, paths, ToggleHttp3Options(enableHTTP3)).ports
    ensures outcome == Updated ==> o.live.value.spec.taskTemplate.containerSpec.env == Some(if old(o.live).value.spec.taskTemplate.containerSpec.env.Some? then old(o.live).value.spec.taskTemplate.containerSpec.env.value else [])
    ensures outcome != CreateRejected ==> o.index == old(o.index) + 1
    ensures outcome == CreateRejected ==> o.live == old(o.live) && o.index == old(o.index)
  {
    outcome := InitializeTraefik(o, env, paths, ToggleHttp3Options(enableHTTP3), pulled, reachable, createReachable);
  }

  /** `writeTraefikEnv`, given the already parsed variable list. */
  method WriteTraefikEnv(o: Orchestrator, env: ProcessEnv, paths: Paths, envs: seq<string>,
                         pulled: bool, reachable: bool, createReachable: bool) returns (outcome: InitOutcome)
    requires o.Valid()
    modifies o
    ensures o.Valid()
    ensures o.requests == old(o.requests)
              + InitRequests(old(o.live), DesiredSpec(env, paths, WriteTraefikEnvOptions(envs)), Some(envs), pulled, reachable)
    ensures outcome == CreateRejected <==> !(pulled && reachable && old(o.live).Some?) && !(old(o.live).None? && createReachable)
    ensures outcome == Updated <==> pulled && reachable && old(o.live).Some?
    ensures outcome == Created <==> old(o.live).None? && createReachable
    ensures outcome == Updated ==> o.live == Some(LiveService(UpdatedSpec(DesiredSpec(env, paths, WriteTraefikEnvOptions(envs)), old(o.live).value, Some(envs)), o.index))
    ensures outcome == Created ==> o.live == Some(LiveService(DesiredSpec(env, paths, WriteTraefikEnvOptions(envs)), o.index))
    ensures outcome != CreateRejected ==> o.live.Some? && o.live.value.spec.ports == DesiredSpec(env, paths, WriteTraefikEnvOptions(envs)).ports
    ensures outcome != CreateRejected ==> o.live.value.spec.taskTemplate.containerSpec.env == Some(envs)
    ensures outcome != CreateRejected ==> o.index == old(o.index) + 1
    ensures outcome == CreateRejected ==> o.live == old(o.live) && o.index == old(o.index)
  {
    outcome := InitializeTraefik(o, env, paths, WriteTraefikEnvOptions(envs), pulled, reachable, createReachable);
  }

  // ---------------------------------------------------------------------
  // assignDomainServer

  /** The administrator fields `assignDomainServer` stores. */
  datatype Admin = Admin(host: string, letsEncryptEmail: Option<string>, certificateType: string)

  /** The web-server updates `assignDomainServer` triggers. */
  datatype WebServerCall =
    | UpdateServerTraefik(admin: Admin, host: string)
    | UpdateLetsEncryptEmail(email: Option<string>)

  datatype TrpcError = NotFound(message: string)

  /**
   * `assignDomainServer`, given what `updateAdmin` returned: without an
   * administrator it throws NOT_FOUND and triggers nothing; otherwise it
   * updates the routing for `host` and the certificate email, then returns
   * the administrator.
   */
  function AssignDomainServer(updated: Option<Admin>, host: string): (r: (Result<Admin, TrpcError>, seq<WebServerCall>))
    ensures r.0.Failure? <==> updated.None?
    ensures r.0.Failure? ==> r.0.error == NotFound("Admin not found") && r.1 == []
    ensures r.0.Success? ==>
              && r.0.value == updated.value
              && r.1 == [UpdateServerTraefik(updated.value, host), UpdateLetsEncryptEmail(updated.value.letsEncryptEmail)]
  {
    match updated
    case None => (Failure(NotFound("Admin not found")), [])
    case Some(admin) => (Success(admin), [UpdateServerTraefik(admin, host), UpdateLetsEncryptEmail(admin.letsEncryptEmail)])
  }
}
