/**
 * Bootstrap of the Traefik reverse proxy: the ports it publishes, the Swarm
 * service it runs as (created, or updated in place), and the three default
 * configuration documents written on first boot.
 */
module TraefikSetup {
  import opened Wrappers
  import opened JsonTree
  import opened JsNumber
  import opened Swarm
  import opened Files

  /** `process.env.NODE_ENV`, as far as the code distinguishes it. */
  datatype NodeEnv = Development | Production | Other

  /** The process environment variables the bootstrap code reads. */
  datatype ProcessEnv = ProcessEnv(
    traefikSslPort: Option<string>,
    traefikPort: Option<string>,
    port: Option<string>,
    nodeEnv: NodeEnv)

  /** The directories MAIN_TRAEFIK_PATH and DYNAMIC_TRAEFIK_PATH, given without a trailing separator. */
  datatype Paths = Paths(mainTraefik: string, dynamicTraefik: string)

  /** The options of `initializeTraefik`; `env` is None when it is not passed. */
  datatype TraefikOptions = TraefikOptions(enableDashboard: bool, enableHTTP3: bool, env: Option<seq<string>>)

  /** `initializeTraefik({})`: both flags default to false and no env is passed. */
  const DefaultOptions := TraefikOptions(false, false, None)

  const DefaultSslPort := 443
  const DefaultPort := 80
  const ImageName := "traefik:v3.1.2"
  const ContainerName := "dokploy-traefik"
  const AppName := "dokploy"

  // ---------------------------------------------------------------------
  // Ports

  /**
   * `Number.parseInt(v ?? "", 10) || fallback`: the parsed variable, unless
   * it is missing, not a number, or zero.
   */
  function EnvPort(v: Option<string>, fallback: int): (r: int)
    ensures fallback != 0 ==> r != 0
    ensures r == fallback || (v.Some? && ParseInt(v.value) == Some(r))
    ensures v.Some? && ParseInt(v.value).Some? && ParseInt(v.value).value != 0 ==> r == ParseInt(v.value).value
  {
    var parsed := ParseInt(if v.Some? then v.value else "");
    if parsed.Some? && parsed.value != 0 then parsed.value else fallback
  }

  /** TRAEFIK_SSL_PORT: the variable read by parseInt when that is a nonzero number, else 443. */
  function SslPort(env: ProcessEnv): (r: int)
    ensures r != 0
    ensures r == DefaultSslPort || (env.traefikSslPort.Some? && ParseInt(env.traefikSslPort.value) == Some(r))
  {
    EnvPort(env.traefikSslPort, DefaultSslPort)
  }

  /** TRAEFIK_PORT: the variable read by parseInt when that is a nonzero number, else 80. */
  function TraefikPort(env: ProcessEnv): (r: int)
    ensures r != 0
    ensures r == DefaultPort || (env.traefikPort.Some? && ParseInt(env.traefikPort.value) == Some(r))
  {
    EnvPort(env.traefikPort, DefaultPort)
  }

  /** A missing, empty, zero or non-numeric variable selects the fallback port. */
  lemma EnvPortFallback(v: Option<string>, fallback: int)
    requires v.None? || ParseInt(v.value) == None || ParseInt(v.value) == Some(0)
    ensures EnvPort(v, fallback) == fallback
  {
    if v.None? {
      ParseIntNoDigits("");
    }
  }

  /** A variable holding a positive decimal number, possibly followed by non-digits, selects that number. */
  lemma EnvPortDecimal(n: nat, rest: string, fallback: int)
    requires n != 0
    requires rest == [] || !IsDigit(rest[0])
    ensures EnvPort(Some(NatToString(n) + rest), fallback) == n
  {
    ParseIntOfNatToString(n, rest);
  }

  function Http3Port(ssl: int): PortConfig { PortConfig(443, ssl, "host", Some("udp")) }
  function TlsPort(ssl: int): PortConfig { PortConfig(443, ssl, "host", Some("tcp")) }
  function WebPort(plain: int): PortConfig { PortConfig(80, plain, "host", None) }
  const DashboardPort := PortConfig(8080, 8080, "host", None)

  /** `EndpointSpec.Ports` of the Traefik service. */
  function PublishedPorts(enableHTTP3: bool, enableDashboard: bool, ssl: int, plain: int): seq<PortConfig>
  {
    (if enableHTTP3 then [Http3Port(ssl)] else [])
    + [TlsPort(ssl), WebPort(plain)]
    + (if enableDashboard then [DashboardPort] else [])
  }

  /** The port list is UDP 443 (optional), TCP 443, 80, 8080 (optional), in this order. */
  lemma PublishedPortsOrder(enableHTTP3: bool, enableDashboard: bool, ssl: int, plain: int)
    ensures var r := PublishedPorts(enableHTTP3, enableDashboard, ssl, plain);
            var k := if enableHTTP3 then 1 else 0;
            && |r| == 2 + k + (if enableDashboard then 1 else 0)
            && (enableHTTP3 ==> r[0] == Http3Port(ssl))
            && r[k] == TlsPort(ssl)
            && r[k + 1] == WebPort(plain)
            && (enableDashboard ==> r[k + 2] == DashboardPort)
  {
  }

  /** A UDP entry is published exactly when HTTP/3 is enabled, and an 8080 target exactly when the dashboard is. */
  lemma PublishedPortsFlags(enableHTTP3: bool, enableDashboard: bool, ssl: int, plain: int)
    ensures var r := PublishedPorts(enableHTTP3, enableDashboard, ssl, plain);
            && ((exists i :: 0 <= i < |r| && r[i].protocol == Some("udp")) <==> enableHTTP3)
            && ((exists i :: 0 <= i < |r| && r[i].targetPort == 8080) <==> enableDashboard)
  {
    var r := PublishedPorts(enableHTTP3, enableDashboard, ssl, plain);
    PublishedPortsOrder(enableHTTP3, enableDashboard, ssl, plain);
    var k := if enableHTTP3 then 1 else 0;
    if enableHTTP3 {
      assert r[0].protocol == Some("udp");
    }
    if enableDashboard {
      assert r[k + 2].targetPort == 8080;
    }
  }

  // ---------------------------------------------------------------------
  // Service specification

  function Join(dir: string, name: string): string { dir + "/" + name }

  /** The spec literal `settings` of `initializeTraefik`. */
  function DesiredSpec(env: ProcessEnv, paths: Paths, opts: TraefikOptions): ServiceSpec
  {
    ServiceSpec(
      ContainerName,
      TaskTemplate(
        ContainerSpec(
          ImageName,
          opts.env,
          [ Mount("bind", paths.mainTraefik + "/traefik.yml", "/etc/traefik/traefik.yml"),
            Mount("bind", paths.dynamicTraefik, "/etc/dokploy/traefik/dynamic"),
            Mount("bind", "/var/run/docker.sock", "/var/run/docker.sock") ]),
        ["dokploy-network"],
        ["node.role==manager"]),
      1,
      map["traefik.enable" := "true"],
      PublishedPorts(opts.enableHTTP3, opts.enableDashboard, SslPort(env), TraefikPort(env)))
  }

  /** `updatedEnv`: the passed env verbatim, else the live `Env`, else the empty list. */
  function UpdatedEnv(liveEnv: Option<seq<string>>, env: Option<seq<string>>): seq<string>
  {
    if env.None? then (if liveEnv.Some? then liveEnv.value else []) else env.value
  }

  /** `updatedSettings`: the desired spec with `ContainerSpec.Env` replaced by `updatedEnv`. */
  function UpdatedSpec(desired: ServiceSpec, live: LiveService, env: Option<seq<string>>): ServiceSpec
  {
    var container := desired.taskTemplate.containerSpec.(env := Some(UpdatedEnv(live.spec.taskTemplate.containerSpec.env, env)));
    desired.(taskTemplate := desired.taskTemplate.(containerSpec := container))
  }

  /**
   * The update passes every field of the desired spec through and replaces
   * only `Env`: with the passed env when there is one (even an empty one),
   * else with the live env, so the two lists are never merged.
   */
  lemma UpdatedSpecReplacesOnlyEnv(desired: ServiceSpec, live: LiveService, env: Option<seq<string>>)
    ensures var s := UpdatedSpec(desired, live, env);
            var liveEnv := live.spec.taskTemplate.containerSpec.env;
            && s.(taskTemplate := desired.taskTemplate) == desired
            && s.taskTemplate.(containerSpec := desired.taskTemplate.containerSpec) == desired.taskTemplate
            && s.taskTemplate.containerSpec.(env := desired.taskTemplate.containerSpec.env) == desired.taskTemplate.containerSpec
            && (env.Some? ==> s.taskTemplate.containerSpec.env == env)
            && (env.None? && liveEnv.Some? ==> s.taskTemplate.containerSpec.env == liveEnv)
            && (env.None? && liveEnv.None? ==> s.taskTemplate.containerSpec.env == Some([]))
  {
  }

  /** What `initializeTraefik` reports: updated, created, or failed in `createService` (the error reaches the caller). */
  datatype InitOutcome = Updated | Created | CreateRejected

  /**
   * The calls `initializeTraefik` makes on the orchestrator: when the image
   * pull succeeds and the service exists, an update tagged with the live
   * version; after any failure (pull, inspect or update), a create from the
   * spec as built.
   */
  function InitRequests(live: Option<LiveService>, desired: ServiceSpec, env: Option<seq<string>>,
                        pulled: bool, reachable: bool): seq<Request>
  {
    if pulled && live.Some? then
      [UpdateRequest(live.value.version, UpdatedSpec(desired, live.value, env))]
      + (if reachable then [] else [CreateRequest(desired)])
    else
      [CreateRequest(desired)]
  }

  /** An update, when one is sent, carries the live version and leaves Env as the precedence rule says. */
  lemma UpdateCarriesLiveVersion(live: Option<LiveService>, env: ProcessEnv, paths: Paths, opts: TraefikOptions,
                                 pulled: bool, reachable: bool)
    ensures var rs := InitRequests(live, DesiredSpec(env, paths, opts), opts.env, pulled, reachable);
            && |rs| >= 1
            && (rs[0].UpdateRequest? <==> pulled && live.Some?)
            && (rs[0].UpdateRequest? ==>
                  && rs[0].version == live.value.version
                  && rs[0].spec.ports == DesiredSpec(env, paths, opts).ports
                  && rs[0].spec.taskTemplate.containerSpec.env
                     == Some(UpdatedEnv(live.value.spec.taskTemplate.containerSpec.env, opts.env)))
  {
  }

  /** After any failure the spec is created as built, with `Env` exactly the passed env (None when not passed). */
  lemma FailureCreatesDesired(live: Option<LiveService>, env: ProcessEnv, paths: Paths, opts: TraefikOptions,
                              pulled: bool, reachable: bool)
    requires !pulled || live.None? || !reachable
    ensures var rs := InitRequests(live, DesiredSpec(env, paths, opts), opts.env, pulled, reachable);
            && rs[|rs| - 1] == CreateRequest(DesiredSpec(env, paths, opts))
            && rs[|rs| - 1].spec.taskTemplate.containerSpec.env == opts.env
  {
  }

  /**
   * `initializeTraefik`. `pulled` says whether `pullImage` succeeded,
   * `reachable` whether the orchestrator answers the update and
   * `createReachable` whether it answers the create; the live service is
   * read with `inspect`.
   */
  method InitializeTraefik(o: Orchestrator, env: ProcessEnv, paths: Paths, opts: TraefikOptions,
                           pulled: bool, reachable: bool, createReachable: bool) returns (outcome: InitOutcome)
    requires o.Valid()
    modifies o
    ensures o.Valid()
    ensures o.requests == old(o.requests) + InitRequests(old(o.live), DesiredSpec(env, paths, opts), opts.env, pulled, reachable)
    ensures outcome == Updated <==> pulled && reachable && old(o.live).Some?
    ensures outcome == Created <==> old(o.live).None? && createReachable
    ensures outcome == Updated ==> o.live == Some(LiveService(UpdatedSpec(DesiredSpec(env, paths, opts), old(o.live).value, opts.env), o.index))
    ensures outcome == Created ==> o.live == Some(LiveService(DesiredSpec(env, paths, opts), o.index))
    ensures outcome != CreateRejected ==> o.index == old(o.index) + 1
    ensures outcome == CreateRejected ==> o.live == old(o.live) && o.index == old(o.index)
  {
    var settings := DesiredSpec(env, paths, opts);
    if pulled {
      var inspect := o.Inspect();
      if inspect.Some? {
        var updated := UpdatedSpec(settings, inspect.value, opts.env);
        var ok := o.Update(inspect.value.version, updated, reachable);
        if ok {
          return Updated;
        }
      }
    }
    var created := o.Create(settings, createReachable);
    outcome := if created then Created else CreateRejected;
  }

  // ---------------------------------------------------------------------
  // Default documents

  function ServerConfigPath(paths: Paths): string { Join(paths.dynamicTraefik, AppName + ".yml") }
  function MainConfigPath(paths: Paths): string { Join(paths.mainTraefik, "traefik.yml") }
  function AcmeJsonPath(paths: Paths): string { Join(paths.dynamicTraefik, "acme.json") }
  function MiddlewaresPath(paths: Paths): string { Join(paths.dynamicTraefik, "middlewares.yml") }

  /** `${appName}-router-app` and `${appName}-service-app`, with `appName` = "dokploy". */
  const RouterName := "dokploy-router-app"
  const ServiceName := "dokploy-service-app"

  /** `http://dokploy:${process.env.PORT || 3000}`. */
  function ServiceUrl(env: ProcessEnv): string
  {
    "http://" + AppName + ":" + (if env.port.Some? && env.port.value != "" then env.port.value else "3000")
  }

  /** The rule of the default router: `Host(\`dokploy.docker.localhost\`) && PathPrefix(\`/\`)`. */
  const DefaultRouterRule := "Host(`dokploy.docker.localhost`) && PathPrefix(`/`)"

  /** The one router of the default routing document. */
  const DefaultRouter := JObj(map[
    "rule" := JStr(DefaultRouterRule),
    "service" := JStr(ServiceName),
    "entryPoints" := JArr([JStr("web")])])

  /** The one service of the default routing document, forwarding to the Dokploy server. */
  function DefaultService(env: ProcessEnv): Json
  {
    JObj(map[
      "loadBalancer" := JObj(map[
        "servers" := JArr([JObj(map["url" := JStr(ServiceUrl(env))])]),
        "passHostHeader" := JBool(true)])])
  }

  /** The dynamic routing document written by `createDefaultServerTraefikConfig`. */
  function DefaultServerConfig(env: ProcessEnv): Json
  {
    JObj(map[
      "http" := JObj(map[
        "routers" := JObj(map[RouterName := DefaultRouter]),
        "services" := JObj(map[ServiceName := DefaultService(env)])])])
  }

  /** Every router of a routing document names a service the document defines. */
  predicate ServiceRefsResolve(doc: Json)
  {
    match (At(doc, ["http", "routers"]), At(doc, ["http", "services"]))
    case (Some(JObj(routers)), Some(JObj(services))) =>
      forall name :: name in routers ==>
        (match Get(routers[name], "service")
         case Some(JStr(target)) => target in services
         case _ => false)
    case _ => false
  }

  /** Lookups below `http.routers` and `http.services` reach the two sections. */
  lemma DefaultServerConfigSections(env: ProcessEnv, p: seq<string>)
    ensures At(DefaultServerConfig(env), ["http", "routers"] + p) == At(JObj(map[RouterName := DefaultRouter]), p)
    ensures At(DefaultServerConfig(env), ["http", "services"] + p) == At(JObj(map[ServiceName := DefaultService(env)]), p)
  {
    AtConcat(DefaultServerConfig(env), ["http", "routers"], p);
    AtConcat(DefaultServerConfig(env), ["http", "services"], p);
  }

  /**
   * The default routing document has exactly one router, `dokploy-router-app`,
   * and one service, `dokploy-service-app`, and the router's service
   * reference resolves.
   */
  lemma DefaultServerConfigShape(env: ProcessEnv)
    ensures var doc := DefaultServerConfig(env);
            && ServiceRefsResolve(doc)
            && At(doc, ["http", "routers"]).value.fields.Keys == {RouterName}
            && At(doc, ["http", "services"]).value.fields.Keys == {ServiceName}
  {
    DefaultServerConfigSections(env, []);
    assert ["http", "routers"] + [] == ["http", "routers"];
    assert ["http", "services"] + [] == ["http", "services"];
  }

  /** The router matches on entry point `web` and forwards to `dokploy-service-app`. */
  lemma DefaultServerConfigRouter(env: ProcessEnv)
    ensures var doc := DefaultServerConfig(env);
            && At(doc, ["http", "routers", RouterName, "service"]) == Some(JStr(ServiceName))
            && At(doc, ["http", "routers", RouterName, "entryPoints"]) == Some(JArr([JStr("web")]))
  {
    var routers := JObj(map[RouterName := DefaultRouter]);
    DefaultServerConfigSections(env, [RouterName, "service"]);
    assert ["http", "routers"] + [RouterName, "service"] == ["http", "routers", RouterName, "service"];
    AtCons(routers, RouterName, ["service"]);
    AtCons(DefaultRouter, "service", []);
    DefaultServerConfigSections(env, [RouterName, "entryPoints"]);
    assert ["http", "routers"] + [RouterName, "entryPoints"] == ["http", "routers", RouterName, "entryPoints"];
    AtCons(routers, RouterName, ["entryPoints"]);
    AtCons(DefaultRouter, "entryPoints", []);
  }

  /** The service balances over the one Dokploy server URL and passes the host header. */
  lemma DefaultServerConfigService(env: ProcessEnv)
    ensures var doc := DefaultServerConfig(env);
            && At(doc, ["http", "services", ServiceName, "loadBalancer", "passHostHeader"]) == Some(JBool(true))
            && At(doc, ["http", "services", ServiceName, "loadBalancer", "servers"])
               == Some(JArr([JObj(map["url" := JStr(ServiceUrl(env))])]))
  {
    var services := JObj(map[ServiceName := DefaultService(env)]);
    DefaultServerConfigSections(env, [ServiceName, "loadBalancer", "passHostHeader"]);
    assert ["http", "services"] + [ServiceName, "loadBalancer", "passHostHeader"]
        == ["http", "services", ServiceName, "loadBalancer", "passHostHeader"];
    AtCons(services, ServiceName, ["loadBalancer", "passHostHeader"]);
    DefaultServerConfigSections(env, [ServiceName, "loadBalancer", "servers"]);
    assert ["http", "services"] + [ServiceName, "loadBalancer", "servers"]
        == ["http", "services", ServiceName, "loadBalancer", "servers"];
    AtCons(services, ServiceName, ["loadBalancer", "servers"]);
    DefaultServiceLookups(env);
  }

  lemma DefaultServiceLookups(env: ProcessEnv)
    ensures At(DefaultService(env), ["loadBalancer", "passHostHeader"]) == Some(JBool(true))
    ensures At(DefaultService(env), ["loadBalancer", "servers"]) == Some(JArr([JObj(map["url" := JStr(ServiceUrl(env))])]))
  {
    var lb := DefaultService(env).fields["loadBalancer"];
    AtCons(DefaultService(env), "loadBalancer", ["passHostHeader"]);
    AtCons(lb, "passHostHeader", []);
    AtCons(DefaultService(env), "loadBalancer", ["servers"]);
    AtCons(lb, "servers", []);
  }

  /** The directory, inside the container, that the file provider watches. */
  const DynamicDirectory := "/etc/dokploy/traefik/dynamic"
  /** The development docker provider's default rule. */
  const DockerDefaultRule := "Host(`{{ trimPrefix `/` .Name }}.docker.localhost`)"
  /** The contact address and certificate store of the `letsencrypt` resolver. */
  const AcmeEmail := "test@localhost.com"
  const AcmeStorage := "/etc/dokploy/traefik/dynamic/acme.json"

  function Providers(nodeEnv: NodeEnv): Json
  {
    var file := JObj(map["directory" := JStr(DynamicDirectory), "watch" := JBool(true)]);
    if nodeEnv == Development then
      JObj(map[
        "docker" := JObj(map["defaultRule" := JStr(DockerDefaultRule)]),
        "file" := file])
    else
      JObj(map[
        "swarm" := JObj(map["exposedByDefault" := JBool(false), "watch" := JBool(false)]),
        "docker" := JObj(map["exposedByDefault" := JBool(false)]),
        "file" := file])
  }

  /** The `websecure` entry point; HTTP/3 and TLS only in production, `http3` only with HTTP/3 enabled. */
  function WebSecure(nodeEnv: NodeEnv, enableHTTP3: bool, ssl: int): Json
  {
    var address := JStr(Address(ssl));
    if nodeEnv != Production then
      JObj(map["address" := address])
    else if enableHTTP3 then
      JObj(map["address" := address, "http3" := JObj(map["advertisedPort" := JNum(ssl)]), "http" := WebSecureHttp])
    else
      JObj(map["address" := address, "http" := WebSecureHttp])
  }

  /** TLS through the `letsencrypt` resolver. */
  const WebSecureHttp := JObj(map["tls" := JObj(map["certResolver" := JStr("letsencrypt")])])

  /** The plain `web` entry point. */
  function Web(plain: int): Json { JObj(map["address" := JStr(Address(plain))]) }

  function EntryPoints(nodeEnv: NodeEnv, enableHTTP3: bool, ssl: int, plain: int): Json
  {
    JObj(map["web" := Web(plain), "websecure" := WebSecure(nodeEnv, enableHTTP3, ssl)])
  }

  /** ACME settings of the `letsencrypt` resolver: HTTP challenges answered on `web`. */
  const Acme := JObj(map[
    "email" := JStr(AcmeEmail),
    "storage" := JStr(AcmeStorage),
    "httpChallenge" := JObj(map["entryPoint" := JStr("web")])])

  const CertificatesResolvers := JObj(map["letsencrypt" := JObj(map["acme" := Acme])])

  /** `:${port}`, the listening address of an entry point. */
  function Address(port: int): string { ":" + IntToString(port) }

  /**
   * The main Traefik configuration written by `createDefaultTraefikConfig`,
   * for NODE_ENV `nodeEnv`, TRAEFIK_SSL_PORT `ssl` and TRAEFIK_PORT `plain`.
   */
  function DefaultMainConfig(nodeEnv: NodeEnv, enableHTTP3: bool, ssl: int, plain: int): Json
  {
    var providers := Providers(nodeEnv);
    var entryPoints := EntryPoints(nodeEnv, enableHTTP3, ssl, plain);
    var api := JObj(map["insecure" := JBool(true)]);
    if nodeEnv == Production then
      JObj(map["providers" := providers, "entryPoints" := entryPoints, "api" := api,
               "certificatesResolvers" := CertificatesResolvers])
    else
      JObj(map["providers" := providers, "entryPoints" := entryPoints, "api" := api])
  }

  /** The top-level sections of the main configuration. */
  lemma MainConfigSections(nodeEnv: NodeEnv, enableHTTP3: bool, ssl: int, plain: int)
    ensures var doc := DefaultMainConfig(nodeEnv, enableHTTP3, ssl, plain);
            && Get(doc, "providers") == Some(Providers(nodeEnv))
            && Get(doc, "entryPoints") == Some(EntryPoints(nodeEnv, enableHTTP3, ssl, plain))
            && Get(doc, "certificatesResolvers") == (if nodeEnv == Production then Some(CertificatesResolvers) else None)
  {
  }

  /** Paths under `entryPoints.websecure` lead into the `websecure` entry point. */
  lemma MainConfigWebSecure(nodeEnv: NodeEnv, enableHTTP3: bool, ssl: int, plain: int, p: seq<string>)
    ensures At(DefaultMainConfig(nodeEnv, enableHTTP3, ssl, plain), ["entryPoints", "websecure"] + p)
            == At(WebSecure(nodeEnv, enableHTTP3, ssl), p)
  {
    MainConfigSections(nodeEnv, enableHTTP3, ssl, plain);
    assert ["entryPoints", "websecure"] + p == ["entryPoints"] + (["websecure"] + p);
    AtCons(DefaultMainConfig(nodeEnv, enableHTTP3, ssl, plain), "entryPoints", ["websecure"] + p);
    AtCons(EntryPoints(nodeEnv, enableHTTP3, ssl, plain), "websecure", p);
  }

  /** Paths under `entryPoints.web` lead into the `web` entry point. */
  lemma MainConfigWeb(nodeEnv: NodeEnv, enableHTTP3: bool, ssl: int, plain: int, p: seq<string>)
    ensures At(DefaultMainConfig(nodeEnv, enableHTTP3, ssl, plain), ["entryPoints", "web"] + p) == At(Web(plain), p)
  {
    MainConfigSections(nodeEnv, enableHTTP3, ssl, plain);
    assert ["entryPoints", "web"] + p == ["entryPoints"] + (["web"] + p);
    AtCons(DefaultMainConfig(nodeEnv, enableHTTP3, ssl, plain), "entryPoints", ["web"] + p);
    AtCons(EntryPoints(nodeEnv, enableHTTP3, ssl, plain), "web", p);
  }

  /** The optional members of the `websecure` entry point. */
  lemma WebSecureLookups(nodeEnv: NodeEnv, enableHTTP3: bool, ssl: int)
    ensures var ws := WebSecure(nodeEnv, enableHTTP3, ssl);
            && (At(ws, ["http3"]).Some? <==> nodeEnv == Production && enableHTTP3)
            && (nodeEnv == Production && enableHTTP3 ==> At(ws, ["http3", "advertisedPort"]) == Some(JNum(ssl)))
            && (At(ws, ["http", "tls", "certResolver"]).Some? <==> nodeEnv == Production)
  {
    var ws := WebSecure(nodeEnv, enableHTTP3, ssl);
    AtCons(ws, "http3", []);
    AtCons(ws, "http3", ["advertisedPort"]);
    AtCons(ws, "http", ["tls", "certResolver"]);
    assert At(WebSecureHttp, ["tls", "certResolver"]) == Some(JStr("letsencrypt"));
  }

  /** `websecure.http3.advertisedPort` is the TLS port in production with HTTP/3, and `http3` is absent otherwise. */
  lemma MainConfigHttp3(nodeEnv: NodeEnv, enableHTTP3: bool, ssl: int, plain: int)
    ensures var doc := DefaultMainConfig(nodeEnv, enableHTTP3, ssl, plain);
            && (At(doc, ["entryPoints", "websecure", "http3"]).Some? <==> nodeEnv == Production && enableHTTP3)
            && (nodeEnv == Production && enableHTTP3 ==>
                  At(doc, ["entryPoints", "websecure", "http3", "advertisedPort"]) == Some(JNum(ssl)))
  {
    MainConfigWebSecure(nodeEnv, enableHTTP3, ssl, plain, ["http3"]);
    MainConfigWebSecure(nodeEnv, enableHTTP3, ssl, plain, ["http3", "advertisedPort"]);
    assert ["entryPoints", "websecure"] + ["http3"] == ["entryPoints", "websecure", "http3"];
    assert ["entryPoints", "websecure"] + ["http3", "advertisedPort"] == ["entryPoints", "websecure", "http3", "advertisedPort"];
    WebSecureLookups(nodeEnv, enableHTTP3, ssl);
  }

  /** TLS on `websecure` and the certificate resolvers exist only in production. */
  lemma MainConfigTlsOnlyInProduction(nodeEnv: NodeEnv, enableHTTP3: bool, ssl: int, plain: int)
    ensures var doc := DefaultMainConfig(nodeEnv, enableHTTP3, ssl, plain);
            && (At(doc, ["entryPoints", "websecure", "http", "tls", "certResolver"]).Some? <==> nodeEnv == Production)
            && (Get(doc, "certificatesResolvers").Some? <==> nodeEnv == Production)
  {
    MainConfigSections(nodeEnv, enableHTTP3, ssl, plain);
    MainConfigWebSecure(nodeEnv, enableHTTP3, ssl, plain, ["http", "tls", "certResolver"]);
    assert ["entryPoints", "websecure"] + ["http", "tls", "certResolver"] == ["entryPoints", "websecure", "http", "tls", "certResolver"];
    WebSecureLookups(nodeEnv, enableHTTP3, ssl);
  }

  /** In production the `letsencrypt` resolver keeps its certificates in `acme.json` and answers HTTP challenges on `web`. */
  lemma MainConfigResolver(enableHTTP3: bool, ssl: int, plain: int)
    ensures var doc := DefaultMainConfig(Production, enableHTTP3, ssl, plain);
            && At(doc, ["certificatesResolvers", "letsencrypt", "acme", "storage"]) == Some(JStr(AcmeStorage))
            && At(doc, ["certificatesResolvers", "letsencrypt", "acme", "httpChallenge", "entryPoint"]) == Some(JStr("web"))
  {
    var doc := DefaultMainConfig(Production, enableHTTP3, ssl, plain);
    MainConfigSections(Production, enableHTTP3, ssl, plain);
    assert ["certificatesResolvers", "letsencrypt", "acme", "storage"]
        == ["certificatesResolvers"] + ["letsencrypt", "acme", "storage"];
    assert ["certificatesResolvers", "letsencrypt", "acme", "httpChallenge", "entryPoint"]
        == ["certificatesResolvers"] + ["letsencrypt", "acme", "httpChallenge", "entryPoint"];
    AtCons(doc, "certificatesResolvers", ["letsencrypt", "acme", "storage"]);
    AtCons(doc, "certificatesResolvers", ["letsencrypt", "acme", "httpChallenge", "entryPoint"]);
    ResolverLookups();
  }

  lemma ResolverLookups()
    ensures At(CertificatesResolvers, ["letsencrypt", "acme", "storage"]) == Some(JStr(AcmeStorage))
    ensures At(CertificatesResolvers, ["letsencrypt", "acme", "httpChallenge", "entryPoint"]) == Some(JStr("web"))
  {
    assert ["letsencrypt", "acme", "storage"] == ["letsencrypt"] + (["acme"] + ["storage"]);
    assert ["letsencrypt", "acme", "httpChallenge", "entryPoint"] == ["letsencrypt"] + (["acme"] + ["httpChallenge", "entryPoint"]);
    AtCons(CertificatesResolvers, "letsencrypt", ["acme"] + ["storage"]);
    AtCons(CertificatesResolvers, "letsencrypt", ["acme"] + ["httpChallenge", "entryPoint"]);
    AtCons(JObj(map["acme" := Acme]), "acme", ["storage"]);
    AtCons(JObj(map["acme" := Acme]), "acme", ["httpChallenge", "entryPoint"]);
    AtCons(Acme, "storage", []);
    AtCons(Acme, "httpChallenge", ["entryPoint"]);
  }

  /** Development discovers containers with docker and file; every other environment with swarm, docker and file. */
  lemma MainConfigProviders(nodeEnv: NodeEnv, enableHTTP3: bool, ssl: int, plain: int)
    ensures var providers := At(DefaultMainConfig(nodeEnv, enableHTTP3, ssl, plain), ["providers"]);
            && providers.Some? && providers.value.JObj?
            && providers.value.fields.Keys == (if nodeEnv == Development then {"docker", "file"} else {"swarm", "docker", "file"})
  {
    MainConfigSections(nodeEnv, enableHTTP3, ssl, plain);
    AtCons(DefaultMainConfig(nodeEnv, enableHTTP3, ssl, plain), "providers", []);
    assert ["providers"] + [] == ["providers"];
  }

  /** The entry points listen on the configured ports. */
  lemma MainConfigAddresses(nodeEnv: NodeEnv, enableHTTP3: bool, ssl: int, plain: int)
    ensures At(DefaultMainConfig(nodeEnv, enableHTTP3, ssl, plain), ["entryPoints", "web", "address"]) == Some(JStr(Address(plain)))
    ensures At(DefaultMainConfig(nodeEnv, enableHTTP3, ssl, plain), ["entryPoints", "websecure", "address"]) == Some(JStr(Address(ssl)))
  {
    MainConfigWeb(nodeEnv, enableHTTP3, ssl, plain, ["address"]);
    assert ["entryPoints", "web"] + ["address"] == ["entryPoints", "web", "address"];
    MainConfigWebSecure(nodeEnv, enableHTTP3, ssl, plain, ["address"]);
    assert ["entryPoints", "websecure"] + ["address"] == ["entryPoints", "websecure", "address"];
    AtCons(Web(plain), "address", []);
    AtCons(WebSecure(nodeEnv, enableHTTP3, ssl), "address", []);
  }

  /** An address is `:` followed by text that parseInt reads back as its port. */
  lemma AddressRoundTrip(port: int)
    ensures |Address(port)| >= 1 && Address(port)[0] == ':'
    ensures ParseInt(Address(port)[1..]) == Some(port)
  {
    assert Address(port)[1..] == IntToString(port);
    ParseIntOfIntToString(port);
  }

  /** The middlewares document written by `createDefaultMiddlewares`. */
  function DefaultMiddlewares(): Json
  {
    JObj(map[
      "http" := JObj(map[
        "middlewares" := JObj(map[
          "redirect-to-https" := JObj(map[
            "redirectScheme" := JObj(map["scheme" := JStr("https"), "permanent" := JBool(true)])])])])])
  }

  /** The default middlewares document defines only `redirect-to-https`, a permanent redirect to https. */
  lemma DefaultMiddlewaresShape()
    ensures At(DefaultMiddlewares(), ["http", "middlewares"]).Some?
    ensures At(DefaultMiddlewares(), ["http", "middlewares"]).value.JObj?
    ensures At(DefaultMiddlewares(), ["http", "middlewares"]).value.fields.Keys == {"redirect-to-https"}
    ensures At(DefaultMiddlewares(), ["http", "middlewares", "redirect-to-https", "redirectScheme", "scheme"]) == Some(JStr("https"))
    ensures At(DefaultMiddlewares(), ["http", "middlewares", "redirect-to-https", "redirectScheme", "permanent"]) == Some(JBool(true))
  {
  }

  /** `createDefaultServerTraefikConfig`: writes the routing document unless `dokploy.yml` exists. */
  method CreateDefaultServerTraefikConfig(store: FileStore, env: ProcessEnv, paths: Paths)
    modifies store
    ensures store.files == WriteOnce(old(store.files), ServerConfigPath(paths), DefaultServerConfig(env))
    ensures store.restricted == old(store.restricted)
  {
    var configFilePath := ServerConfigPath(paths);
    if store.Exists(configFilePath) {
      return;
    }
    store.Write(configFilePath, DefaultServerConfig(env));
  }

  /**
   * `createDefaultTraefikConfig`: restricts an existing `acme.json` to mode
   * 0600, then writes the main configuration unless it exists.
   */
  method CreateDefaultTraefikConfig(store: FileStore, env: ProcessEnv, paths: Paths, enableHTTP3: bool)
    modifies store
    ensures store.files == WriteOnce(old(store.files), MainConfigPath(paths),
                                     DefaultMainConfig(env.nodeEnv, enableHTTP3, SslPort(env), TraefikPort(env)))
    ensures store.restricted == old(store.restricted) + (if AcmeJsonPath(paths) in old(store.files) then {AcmeJsonPath(paths)} else {})
  {
    var mainConfig := MainConfigPath(paths);
    var acmeJsonPath := AcmeJsonPath(paths);
    if store.Exists(acmeJsonPath) {
      store.Chmod600(acmeJsonPath);
    }
    if store.Exists(mainConfig) {
      return;
    }
    store.Write(mainConfig, DefaultMainConfig(env.nodeEnv, enableHTTP3, SslPort(env), TraefikPort(env)));
  }

  /** `createDefaultMiddlewares`: writes the middlewares document unless `middlewares.yml` exists. */
  method CreateDefaultMiddlewares(store: FileStore, paths: Paths)
    modifies store
    ensures store.files == WriteOnce(old(store.files), MiddlewaresPath(paths), DefaultMiddlewares())
    ensures store.restricted == old(store.restricted)
  {
    var middlewaresPath := MiddlewaresPath(paths);
    if store.Exists(middlewaresPath) {
      return;
    }
    store.Write(middlewaresPath, DefaultMiddlewares());
  }
}
