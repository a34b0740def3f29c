# Dokploy Traefik bootstrap and settings: a Dafny model

This project models how Dokploy brings up its Traefik reverse proxy and how its settings
handlers adjust it:

- the ports Traefik publishes, chosen by the `enableHTTP3` and `enableDashboard` flags and
  by the `TRAEFIK_SSL_PORT` / `TRAEFIK_PORT` variables (443 and 80 by default);
- the Docker Swarm service spec `initializeTraefik` builds, and how it reconciles that spec
  with the orchestrator: an update tagged with the live version (keeping the live `Env`
  unless one is passed), or a create after any failure;
- the three default documents written on first boot (the `dokploy` routing document, the
  main `traefik.yml`, the `redirect-to-https` middleware), each behind a write-once guard;
- the settings handlers that carry logic: the dashboard and HTTP/3 port detectors, the
  access-log toggle and its detector, the nightly `docker-cleanup` job, the flag forwarding
  of `toggleDashboard` / `toggleHTTP3` / `writeTraefikEnv`, and the `NOT_FOUND` guard of
  `assignDomainServer`.

Modules, one per concern:

| file | module | contents |
|---|---|---|
| wrappers.dfy | `Wrappers` | `Option`, `Result` |
| json_tree.dfy | `JsonTree` | loaded YAML/JSON documents, path lookup, JavaScript truthiness |
| js_number.dfy | `JsNumber` | `Number.parseInt(s, 10)` and decimal rendering, with their round trip |
| swarm.dfy | `Swarm` | service spec datatypes; `Orchestrator`, a class holding the live service or none |
| files.dfy | `Files` | `FileStore`, a class holding the file map and the files set to mode 0600 |
| traefik_setup.dfy | `TraefikSetup` | ports, spec builder, `InitializeTraefik`, default documents and their guarded writes |
| settings.dfy | `Settings` | detectors, access log, `Scheduler`, toggle forwarding, `assignDomainServer` |

Documents are trees as js-yaml loads them. A key whose value is `undefined` is modelled as
absent, because the YAML dump omits it; so `http3: undefined` and `accessLog = undefined`
both leave no key in the written file.

Behaviour of the code that the proofs make explicit:

- The HTTP/3 detector looks for UDP on port 443 itself. On the bootstrap's own port list it
  reports the HTTP/3 flag only when `TRAEFIK_SSL_PORT` is 443. The dashboard detector also
  fires when the TLS or web port is configured as 8080.
- `toggleDashboard` and `toggleHTTP3` each reset the other flag to false, so each drops the
  other's port. `writeTraefikEnv` passes neither flag, so it drops both.
- On a mapping, `toggleRequests(b)` followed by `haveActivateRequests` gives `b`. On a
  document that is an array, `toggleRequests(true)` returns true but changes nothing.
- Env precedence tests `!env`. An explicitly passed empty list therefore wins over the live
  `Env`, just as a non-empty one does.
- Every failure (pull, inspect, update) falls through to `createService`. The code does not
  tell "not found" apart from other errors. If the service exists, or the create itself
  fails, the error reaches the caller (`CreateRejected`).
- Re-enabling `docker-cleanup` registers a second job without cancelling the first.
- `http3.advertisedPort` is written only when NODE_ENV is `production`. So
  `createDefaultTraefikConfig(true)` under any other NODE_ENV (a test runner's `test`, for
  instance) writes no `http3` entry at all. The repository's test of the dynamic config
  (`update-server-config.test.ts`) expects `advertisedPort` 443 in that setting.

## Model

| member | source | states |
|---|---|---|
| `TraefikSetup.EnvPort` | apps/dokploy/server/setup/traefik-setup.ts:10-12 | the port is never 0 when the fallback is not; it is either the fallback or the value parseInt reads from the variable, and it is that value whenever parseInt reads a nonzero number (leading spaces, a sign or leading zeros included) |
| `TraefikSetup.SslPort` | apps/dokploy/server/setup/traefik-setup.ts:10-11 | `TRAEFIK_SSL_PORT` is never 0, and is 443 or the number parseInt reads from the variable |
| `TraefikSetup.TraefikPort` | apps/dokploy/server/setup/traefik-setup.ts:12 | `TRAEFIK_PORT` is never 0, and is 80 or the number parseInt reads from the variable |
| `TraefikSetup.EnvPortFallback` | apps/dokploy/server/setup/traefik-setup.ts:10-12 | a missing, non-numeric or zero variable selects the fallback (443 / 80) |
| `TraefikSetup.EnvPortDecimal` | apps/dokploy/server/setup/traefik-setup.ts:10-12 | a variable holding a positive decimal, even with trailing non-digits, selects that number |
| `TraefikSetup.PublishedPorts` | apps/dokploy/server/setup/traefik-setup.ts:64-98 | the published port list as a definition: optional UDP 443, TCP 443 and 80 on the configured ports, optional dashboard 8080 |
| `TraefikSetup.DesiredSpec` | apps/dokploy/server/setup/traefik-setup.ts:25-99 | the service spec as built: name `dokploy-traefik`, image `traefik:v3.1.2`, the config and socket mounts, network `dokploy-network`, the manager constraint, one replica, the `traefik.enable` label, `Env` as passed, and the published ports |
| `TraefikSetup.UpdatedEnv` | apps/dokploy/server/setup/traefik-setup.ts:106-107 | `!env ? (live Env or []) : env` as a definition |
| `TraefikSetup.UpdatedSpec` | apps/dokploy/server/setup/traefik-setup.ts:109-118 | the desired spec with only `ContainerSpec.Env` replaced, as a definition |
| `TraefikSetup.InitRequests` | apps/dokploy/server/setup/traefik-setup.ts:100-128 | the orchestrator calls of one bootstrap as a definition: the update with the live version after a pull that finds the service, then a create unless that update was accepted |
| `JsNumber.DigitRun` | apps/dokploy/server/setup/traefik-setup.ts:11 | the digit run parseInt reads is the longest all-digit prefix |
| `JsNumber.ParseInt` | apps/dokploy/server/setup/traefik-setup.ts:11-12 | `Number.parseInt(s, 10)` as a definition: skip leading white space, read one sign, then the longest digit run; None (NaN) when the run is empty |
| `JsNumber.TrimStart` | apps/dokploy/server/setup/traefik-setup.ts:11 | the result starts with no JavaScript white space, and an input that starts with none is returned whole |
| `JsNumber.TrimStartDropsSpace` | apps/dokploy/server/setup/traefik-setup.ts:11 | parseInt's trimming keeps a suffix of the input and everything it drops is JavaScript white space |
| `JsNumber.NatToString` | apps/dokploy/server/setup/traefik-setup.ts:206 | a rendered number is a non-empty digit string, and it starts with `0` only when it is exactly `"0"` |
| `JsNumber.IntToString` | apps/dokploy/server/setup/traefik-setup.ts:206-209 | `${port}` rendering: non-empty, starting with `-` exactly for a negative number, and digits otherwise |
| `JsNumber.DigitsValueOfNatToString` | apps/dokploy/server/setup/traefik-setup.ts:206 | the digits of a rendered number have that number as value |
| `JsNumber.DigitRunOfDigits` | apps/dokploy/server/setup/traefik-setup.ts:11 | parseInt's digit run over digits followed by a non-digit is exactly those digits |
| `JsNumber.ParseIntOfNatToString` | apps/dokploy/server/setup/traefik-setup.ts:11 | parseInt reads back a rendered natural number whatever non-digit text follows |
| `JsNumber.ParseIntOfNegative` | apps/dokploy/server/setup/traefik-setup.ts:11 | parseInt reads a minus sign followed by digits as the negated value of the digits |
| `JsNumber.ParseIntOfIntToString` | apps/dokploy/server/setup/traefik-setup.ts:206-209 | parseInt and template rendering are inverse for every integer, negatives included |
| `JsNumber.ParseIntNoDigits` | apps/dokploy/server/setup/traefik-setup.ts:11 | a string without digits (the empty string of a missing variable included) is NaN |
| `TraefikSetup.PublishedPortsOrder` | apps/dokploy/server/setup/traefik-setup.ts:64-98 | the ports are UDP 443→SSL (only with HTTP/3), TCP 443→SSL, 80→TRAEFIK_PORT, 8080→8080 (only with the dashboard), length 2 + the two flags |
| `TraefikSetup.PublishedPortsFlags` | apps/dokploy/server/setup/traefik-setup.ts:66-96 | a UDP entry is present iff HTTP/3 is enabled, and an 8080 target iff the dashboard is |
| `TraefikSetup.UpdatedSpecReplacesOnlyEnv` | apps/dokploy/server/setup/traefik-setup.ts:106-118 | the update spec equals the desired spec except `ContainerSpec.Env`, which is the passed env (even empty) or else the live env or else `[]`, never a merge |
| `TraefikSetup.UpdateCarriesLiveVersion` | apps/dokploy/server/setup/traefik-setup.ts:100-122 | an update is sent iff the pull succeeded and the service exists, and it carries the live version, the desired ports and the precedence env |
| `TraefikSetup.FailureCreatesDesired` | apps/dokploy/server/setup/traefik-setup.ts:125-128 | after any failure the last call creates the spec as built, with `Env` exactly the passed env (possibly undefined) |
| `TraefikSetup.InitializeTraefik` | apps/dokploy/server/setup/traefik-setup.ts:20-129 | the calls sent are the planned update and/or create; updated iff pull and update succeed on a present service; created iff none existed and the create reached the orchestrator; a failed create changes nothing |
| `Swarm.Orchestrator.Inspect` | apps/dokploy/server/setup/traefik-setup.ts:103-104 | inspect returns the live service, none when it does not exist |
| `Swarm.Orchestrator.Update` | apps/dokploy/server/setup/traefik-setup.ts:119-122 | an update is accepted only when reachable at the current version; it installs the spec under a version larger than the old one, and a rejection changes nothing |
| `Swarm.Orchestrator.Create` | apps/dokploy/server/setup/traefik-setup.ts:126 | a create is accepted only when the orchestrator is reachable and no service exists; a rejection changes nothing |
| `TraefikSetup.DefaultServerConfig` | apps/dokploy/server/setup/traefik-setup.ts:139-159 | the routing document as a definition: router `dokploy-router-app` on `web` to service `dokploy-service-app`, which balances over the Dokploy server URL |
| `TraefikSetup.DefaultServerConfigShape` | apps/dokploy/server/setup/traefik-setup.ts:141-159 | the routing document has exactly the router `dokploy-router-app` and the service `dokploy-service-app`, and every router's service reference resolves |
| `TraefikSetup.DefaultServerConfigRouter` | apps/dokploy/server/setup/traefik-setup.ts:144-148 | the router listens on entry point `web` and forwards to `dokploy-service-app` |
| `TraefikSetup.DefaultServerConfigService` | apps/dokploy/server/setup/traefik-setup.ts:140-156 | the service balances over the single server `http://dokploy:${PORT or 3000}` and passes the host header |
| `TraefikSetup.DefaultMainConfig` | apps/dokploy/server/setup/traefik-setup.ts:181-239 | the main configuration as a definition: providers by NODE_ENV, `web` and `websecure` entry points, the insecure API, and in production TLS, optional HTTP/3 and the `letsencrypt` resolver |
| `TraefikSetup.MainConfigSections` | apps/dokploy/server/setup/traefik-setup.ts:181-238 | the main config has the providers and entry points for its environment, and `certificatesResolvers` exactly in production |
| `TraefikSetup.MainConfigWebSecure` | apps/dokploy/server/setup/traefik-setup.ts:208-221 | lookups under `entryPoints.websecure` reach the `websecure` entry point |
| `TraefikSetup.MainConfigWeb` | apps/dokploy/server/setup/traefik-setup.ts:205-207 | lookups under `entryPoints.web` reach the `web` entry point |
| `TraefikSetup.MainConfigHttp3` | apps/dokploy/server/setup/traefik-setup.ts:210-214 | `websecure.http3` exists iff production with HTTP/3, and then `advertisedPort` is TRAEFIK_SSL_PORT |
| `TraefikSetup.MainConfigTlsOnlyInProduction` | apps/dokploy/server/setup/traefik-setup.ts:210-238 | `websecure.http.tls` and `certificatesResolvers` exist iff NODE_ENV is production |
| `TraefikSetup.MainConfigResolver` | apps/dokploy/server/setup/traefik-setup.ts:226-238 | the production resolver stores certificates in `acme.json` and answers HTTP challenges on `web` |
| `TraefikSetup.MainConfigProviders` | apps/dokploy/server/setup/traefik-setup.ts:182-203 | providers are {docker, file} in development and {swarm, docker, file} in every other environment |
| `TraefikSetup.MainConfigAddresses` | apps/dokploy/server/setup/traefik-setup.ts:204-209 | `web` listens on `:TRAEFIK_PORT` and `websecure` on `:TRAEFIK_SSL_PORT` |
| `TraefikSetup.AddressRoundTrip` | apps/dokploy/server/setup/traefik-setup.ts:206-209 | an entry point address is `:` followed by text parseInt reads back as the port |
| `TraefikSetup.DefaultMiddlewares` | apps/dokploy/server/setup/traefik-setup.ts:252-263 | the middlewares document as a definition: `redirect-to-https`, a permanent redirect scheme to https |
| `TraefikSetup.DefaultMiddlewaresShape` | apps/dokploy/server/setup/traefik-setup.ts:252-263 | the middlewares document defines only `redirect-to-https`, a permanent redirect to https |
| `Files.WriteOnce` | apps/dokploy/server/setup/traefik-setup.ts:134-137 | a guarded write adds the document only when the path is new and never changes an existing file |
| `Files.WriteOnceIdempotent` | apps/dokploy/server/setup/traefik-setup.ts:248-251 | a second guarded write to the same path changes nothing, whatever it would write |
| `TraefikSetup.CreateDefaultServerTraefikConfig` | apps/dokploy/server/setup/traefik-setup.ts:131-168 | the file map becomes the guarded write of the routing document at `dokploy.yml` |
| `TraefikSetup.CreateDefaultTraefikConfig` | apps/dokploy/server/setup/traefik-setup.ts:170-244 | an existing `acme.json` is set to 0600 before the guard; the main config is a guarded write |
| `TraefikSetup.CreateDefaultMiddlewares` | apps/dokploy/server/setup/traefik-setup.ts:246-267 | the file map becomes the guarded write of the middlewares document |
| `Settings.DashboardPortPublished` | apps/dokploy/server/api/routers/settings.ts:363-369 | the dashboard detector as a predicate: some port is published on 8080 |
| `Settings.Http3PortPublished` | apps/dokploy/server/api/routers/settings.ts:378-384 | the HTTP/3 detector as a predicate: some port is UDP and published on 443 |
| `Settings.HaveTraefikDashboardPortEnabled` | apps/dokploy/server/api/routers/settings.ts:363-369 | true iff some published port is 8080 |
| `Settings.HaveTraefikHTTP3Enabled` | apps/dokploy/server/api/routers/settings.ts:378-384 | true iff some port is UDP and published on 443 |
| `Settings.DashboardDetectorAgreesWithBuilder` | apps/dokploy/server/api/routers/settings.ts:363-369 | on the built port list the dashboard detector holds iff the dashboard is enabled or a configured port is 8080 |
| `Settings.Http3DetectorAgreesWithBuilder` | apps/dokploy/server/api/routers/settings.ts:378-384 | on the built port list the HTTP/3 detector holds iff HTTP/3 is enabled and TRAEFIK_SSL_PORT is 443 |
| `Settings.AccessLogEnabled` | apps/dokploy/server/api/routers/settings.ts:426-432 | `!!config?.accessLog?.filePath` on a loaded document, as a predicate |
| `Settings.HaveActivateRequests` | apps/dokploy/server/api/routers/settings.ts:422-433 | `haveActivateRequests`: false without a main config, else whether its access-log file path is truthy |
| `Settings.SetAccessLog` | apps/dokploy/server/api/routers/settings.ts:450-465 | on a mapping, enable sets `accessLog` to the fixed record and disable removes it, every other key unchanged; an array is written back as is; other values throw |
| `Settings.ToggleThenDetect` | apps/dokploy/server/api/routers/settings.ts:422-433 | after a successful toggle, the access-log detector reports the toggled value on a mapping |
| `Settings.ToggleSymmetry` | apps/dokploy/server/api/routers/settings.ts:450-465 | on every document the toggle accepts (a mapping or an array), enabling then disabling equals disabling alone: no trace of the access log is left |
| `Settings.ToggleIdempotent` | apps/dokploy/server/api/routers/settings.ts:450-465 | toggling to the same value twice equals toggling once |
| `Settings.ToggleRequests` | apps/dokploy/server/api/routers/settings.ts:441-469 | without a main config returns false and writes nothing; else writes the toggled document and returns true, after which `haveActivateRequests` holds iff enabling on a mapping; or throws and writes nothing |
| `Settings.Scheduler.ScheduleJob` | apps/dokploy/server/api/routers/settings.ts:175 | a fresh registration becomes active and takes the name in the registry; earlier ones stay active |
| `Settings.Scheduler.CancelJob` | apps/dokploy/server/api/routers/settings.ts:185-186 | the job under the name, if any, stops and leaves the registry; otherwise nothing changes |
| `Settings.UpdateDockerCleanup` | apps/dokploy/server/api/routers/settings.ts:174-189 | enabled registers a new `docker-cleanup` job on `0 0 * * *`; disabled cancels the job of that name if one exists |
| `Settings.ToggleDashboardOptions` | apps/dokploy/server/api/routers/settings.ts:79-86 | the options `toggleDashboard` passes: only `enableDashboard`, so HTTP/3 off and no env |
| `Settings.ToggleHttp3Options` | apps/dokploy/server/api/routers/settings.ts:88-96 | the options `toggleHTTP3` passes: only `enableHTTP3`, so the dashboard off and no env |
| `Settings.WriteTraefikEnvOptions` | apps/dokploy/server/api/routers/settings.ts:346-355 | the options `writeTraefikEnv` passes: only `env`, so both flags off |
| `Settings.ToggleDashboardForwarding` | apps/dokploy/server/api/routers/settings.ts:79-86 | every spec sent has no HTTP/3 port, and (when neither configured port is 8080) has the dashboard port iff asked; an update keeps the live env |
| `Settings.ToggleHttp3Forwarding` | apps/dokploy/server/api/routers/settings.ts:88-96 | every spec sent has UDP 443 iff asked and the TLS port is 443, and (when neither configured port is 8080) no dashboard port; an update keeps the live env |
| `Settings.WriteTraefikEnvForwarding` | apps/dokploy/server/api/routers/settings.ts:346-355 | every spec sent carries exactly the given env and no HTTP/3 port, and (when neither configured port is 8080) no dashboard port |
| `Settings.ToggleDashboard` | apps/dokploy/server/api/routers/settings.ts:79-86 | runs the bootstrap with only `enableDashboard`: updated, created or rejected under the same conditions; an update installs the desired spec with the live env, a create the desired spec, both with that port list; a failed create (name conflict or unreachable orchestrator) leaves the live service and index unchanged |
| `Settings.ToggleHttp3` | apps/dokploy/server/api/routers/settings.ts:88-96 | runs the bootstrap with only `enableHTTP3`: updated, created or rejected under the same conditions; an update installs the desired spec with the live env, a create the desired spec, both with that port list; a failed create (name conflict or unreachable orchestrator) leaves the live service and index unchanged |
| `Settings.WriteTraefikEnv` | apps/dokploy/server/api/routers/settings.ts:346-355 | runs the bootstrap with only `env`: after an update or a create the live service carries exactly the given env and the default port list; a failed create (name conflict or unreachable orchestrator) leaves the live service and index unchanged |
| `Settings.AssignDomainServer` | apps/dokploy/server/api/routers/settings.ts:148-157 | throws NOT_FOUND and triggers nothing iff no administrator came back; otherwise updates routing and certificate email, then returns the administrator |

## Left out

- Docker calls (`pullImage`, `getService`, `inspect`, `update`, `createService`, service
  start/stop) are abstracted. `Orchestrator` holds the one Traefik service or none. The pull
  result, the update's reachability and the create's reachability are boolean inputs; every
  reason `createService` can fail other than a name conflict (daemon unreachable, node not a
  swarm manager, ...) is folded into that one input. A failed update or create changes
  nothing; a network failure in the middle of a call is not modelled.
- Docker's version index is modelled as a global counter that each accepted write
  increments. `Number.parseInt(inspect.Version.Index)` is taken to be that index.
- The detectors take the parsed `Endpoint.Ports` list. The `docker service inspect`
  command and `JSON.parse` of its output are left out. The list is assumed to mirror the
  spec's ports; Docker fills in "tcp" where the spec has no protocol, which neither
  detector depends on.
- File I/O and YAML: `existsSync`, `mkdirSync`, `writeFileSync`, `chmodSync`, js-yaml
  `load`/`dump`. Files are a map from path to loaded document. Key order and the YAML text
  are not kept.
- `path.join` is modelled as `dir + "/" + name`, with the directories given without a
  trailing separator. Its normalisation is not modelled.
- MAIN_TRAEFIK_PATH and DYNAMIC_TRAEFIK_PATH come from a constants file that is not part of
  this model. They are parameters (`Paths`).
- `readMainConfig` and `writeMainConfig` are not part of this model. They are assumed to
  read and write `MAIN_TRAEFIK_PATH/traefik.yml`. An existing but empty main config (which
  `!mainConfig` treats as missing) is not distinguished from other documents.
- `updateTraefikConfig`, which `toggleHTTP3` calls first, is not defined in
  traefik-setup.ts as given. That call is not modelled.
- `updateServerTraefik`, `updateLetsEncryptEmail`, `loadOrCreateConfig`, `readConfig` and
  `writeConfig` are not part of this model. `AssignDomainServer` records the calls it makes
  to the first two, and the routing-document reconciler behind them is not modelled.
- Administrator persistence (`updateAdmin`, `findAdmin`) is an input: `AssignDomainServer`
  takes what `updateAdmin` returned, and `UpdateDockerCleanup` takes the saved flag.
- `prepareEnvironmentVariables` is not part of this model. `WriteTraefikEnv` takes the
  already parsed list.
- Scheduler timing and the job's callback (the cleanup commands and notifications) are
  left out. Only the name-keyed registry and which registrations are active are modelled.
- JavaScript numbers are unbounded integers. The precision loss of parseInt beyond 2^53
  is not modelled.
- Request-handling glue is left out: authorisation, input validation, logging, `async`
  sequencing, and the handlers without logic of their own (reload, clean-up commands,
  SSH keys, raw config read/write, directories, OpenAPI, env read, log statistics, log
  rotation, server IP).
