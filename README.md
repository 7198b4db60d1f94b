# PREvant application service, modelled in Dafny

PREvant deploys review applications made of containerised services. The
application service (`AppsService`) is the piece that decides which service
configurations an application must run and hands them to the infrastructure
backend. For `create_or_update(app_name, service_configs)` it:

1. copies the caller's configurations;
2. unless the application is `master`, asks the backend for master's
   configurations and appends a clone, marked `Replica`, of each one whose
   service name the caller did not supply (the check is against the caller's
   list, not against the list being built);
3. resolves every application-companion template, in load order, against the
   list built so far and appends each result;
4. hands the list to `start_services` and returns its answer.

Any failure on the way (master query, loading the templates, rendering a
template) aborts before the backend is asked to start anything. `delete_app`
reports `AppNotFound` when the backend lists no services for the application
and otherwise asks the backend to stop them; `get_apps` passes the backend's
enumeration through. Lower-layer failures are translated into the service's
own error enum, one variant per kind.

Files:

- `wrappers.dfy` — `Option` and `Result`.
- `service_model.dfy` — service configurations, container types, services and
  the lower-layer error kinds, as values.
- `infrastructure.dfy` — the infrastructure port as a class. Its answers are
  fixed values given at construction; ghost logs record every start and stop
  request, so the model can say whether the backend was asked to act and with
  what arguments.
- `apps_service.dfy` — the error enum and its conversions, the specification
  of the resolution (`WithReplicas`, `ApplyCompanions`, `ResolveConfigs`), the
  lemmas about it, and the `AppsService` class whose methods run the source's
  loops and are proved against that specification.

## Model

| member | source | states |
|---|---|---|
| `Apps.ErrorConversionsAreInjectiveAndDisjoint` | api/src/services/apps_service.rs:117-147 | each lower-layer error becomes exactly one variant (configuration, infrastructure, template) and keeps its cause |
| `Apps.FromConfigError` | api/src/services/apps_service.rs:131-135 | a configuration failure becomes `InvalidServerConfiguration` carrying that failure |
| `Apps.FromInfraError` | api/src/services/apps_service.rs:137-141 | a backend failure becomes `InfrastructureError` carrying that failure |
| `Apps.FromTemplateError` | api/src/services/apps_service.rs:143-147 | a template rendering failure becomes `InvalidTemplateFormat` carrying that failure |
| `Apps.FromInfraResult` | api/src/services/apps_service.rs:53 | a backend answer passed on by `?`: success exactly when the backend succeeded, with the same value; a failure becomes `InfrastructureError` of that failure (also lines 72, 103, 112) |
| `Apps.IsReplicable` | api/src/services/apps_service.rs:74-82 | a master configuration passes the filter exactly when no caller configuration has its service name |
| `Apps.AsReplica` | api/src/services/apps_service.rs:84-85 | the clone has container type `Replica` and the master configuration's name and runtime parameters |
| `Apps.FindByName` | api/src/services/apps_service.rs:75-77 | no result exactly when no configuration has the name; otherwise the first configuration bearing the name |
| `Apps.Replicas` | api/src/services/apps_service.rs:70-87 | never more replicas than master configurations |
| `Apps.ReplicasSound` | api/src/services/apps_service.rs:74-86 | every appended replica is a master configuration whose name the caller did not supply, with container type `Replica` and all other fields as in master |
| `Apps.ReplicasComplete` | api/src/services/apps_service.rs:74-86 | every master configuration whose name the caller did not supply is appended as a replica |
| `Apps.ReplicasAppend` | api/src/services/apps_service.rs:70-87 | replication distributes over concatenation of the master list, so replicas keep master order |
| `Apps.ReplicasOfOne` | api/src/services/apps_service.rs:74-86 | one master configuration yields its replica exactly when the caller did not override its name |
| `Apps.WithReplicas` | api/src/services/apps_service.rs:67-88 | the list before companions starts with the caller's list unchanged; its only failure is an infrastructure error |
| `Apps.MasterGetsNoReplicas` | api/src/services/apps_service.rs:69 | for `master` the list before companions is the caller's list, whatever the master query would answer |
| `Apps.OtherAppsGetReplicas` | api/src/services/apps_service.rs:69-87 | for any other application, the list before companions exists exactly when the master query succeeds, its tail is exactly the replicas, and a failed query becomes `InfrastructureError` |
| `Apps.CallerWinsNameClash` | api/src/services/apps_service.rs:74-82 | before companions, every configuration bearing a caller-supplied name is one of the caller's own entries |
| `Apps.DuplicateMasterNamesAreBothReplicated` | api/src/services/apps_service.rs:74-86 | two master configurations of the same non-overridden name are both replicated: the filter looks only at the caller's list |
| `Apps.ApplyCompanions` | api/src/services/apps_service.rs:90-97 | on success, one companion per template is appended after the unchanged input list |
| `Apps.ApplyCompanionsIsChain` | api/src/services/apps_service.rs:90-97 | the companion step succeeds with a list exactly when template i renders to entry i against the input plus companions 0..i-1 |
| `Apps.ResolveConfigs` | api/src/services/apps_service.rs:67-97 | the resolved list starts with the caller's list unchanged |
| `Apps.CompanionsInLoadOrder` | api/src/services/apps_service.rs:90-97 | a successful resolution is the list before companions followed by the companion chain of the loaded templates |
| `Apps.ResolutionErrors` | api/src/services/apps_service.rs:72-96 | `InfrastructureError` exactly when a non-master query fails, `InvalidServerConfiguration` exactly when loading the templates fails after it, `InvalidTemplateFormat` exactly when a template fails after both; never `AppNotFound` |
| `Apps.ReviewAppExample` | api/src/services/apps_service.rs:69-87 | master `web`, `db` and a caller override of `web` give the caller's `web` then a replica of `db` |
| `Apps.DeleteOutcome` | api/src/services/apps_service.rs:109-114 | deletion succeeds only when enumeration succeeds and lists the application, and then answers what the stop request answered; `AppNotFound` names the requested application |
| `Apps.DeleteNotFoundIff` | api/src/services/apps_service.rs:109-114 | deletion reports `AppNotFound` exactly when enumeration succeeds without an entry; enumeration failure is `InfrastructureError`; otherwise the stop answer is passed on |
| `Apps.AppsService.constructor` | api/src/services/apps_service.rs:37-40 | the service holds the configuration, the backend and the template engine it is given |
| `Apps.AppsService.GetApps` | api/src/services/apps_service.rs:52-54 | the backend's enumeration is returned unchanged, its failure as `InfrastructureError` |
| `Apps.AppsService.CreateOrUpdate` | api/src/services/apps_service.rs:62-106 | a failed resolution is returned with no start request; a successful one sends exactly one start request with the resolved list and returns the backend's answer; no stop request |
| `Apps.AppsService.DeleteApp` | api/src/services/apps_service.rs:109-114 | a stop request is sent exactly when enumeration succeeds and lists the application; no start request; the answer is `DeleteOutcome` |
| `InfrastructurePort.Infrastructure.GetServices` | api/src/services/apps_service.rs:53 | the enumeration answer, with no request logged |
| `InfrastructurePort.Infrastructure.GetConfigsOfApp` | api/src/services/apps_service.rs:70-72 | the configuration query answer, with no request logged |
| `InfrastructurePort.Infrastructure.StartServices` | api/src/services/apps_service.rs:99-103 | logs one start request with its arguments and returns the backend's answer for them |
| `InfrastructurePort.Infrastructure.StopServices` | api/src/services/apps_service.rs:112 | logs one stop request and returns the backend's answer for it |

## Left out

- `AppsService::new` (api/src/services/apps_service.rs:43-48) loads configuration from disk and builds a Docker backend; the model's constructor takes those as arguments instead.
- The Docker backend, `Config::load` and the handlebars engine are not part of this model. The backend's answers are fixed values. Template rendering is an arbitrary total function passed in: `(template, app_name, configs) -> Result<ServiceConfig, TemplateRenderError>`.
- The backend's own state does not change in the model. A start or stop request does not alter what a later `get_services` answers; only the request logs grow.
- `MultiMap` is modelled as `map<string, seq<Service>>`; "has an entry" means the key is present.
- `InvalidServiceModel` is declared but no path in this file produces it, and there is no conversion into it here.
- Service-companion expansion is mentioned in the doc comment at api/src/services/apps_service.rs:61 but is not performed in this file.
- Concurrency is not modelled: the race between the existence check and the stop in `delete_app`, and concurrent `create_or_update` calls.
- Runtime parameters of a configuration (image, environment) are an opaque payload that is only carried along.
- `apps_service.rs` shows only the `ContainerType` variant `Replica`; the enum is declared in models/service.rs, which is not modelled, so the other variant names are placeholders.
- Uniqueness of service names in the resolved list is not asserted: the code does not deduplicate, so duplicate names in master's list, or companions that reuse a name, all reach `start_services`. `Apps.DuplicateMasterNamesAreBothReplicated` exhibits the first case.
