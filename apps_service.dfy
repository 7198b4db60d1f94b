/**
 * The application service: it resolves the full desired set of service
 * configurations of an application (the caller's configurations, replicas
 * of the master application's services the caller did not override, and
 * one application companion per loaded template) and hands that set to the
 * infrastructure backend. It also enumerates and deletes applications.
 */
module Apps {
  import opened Wrappers
  import opened ServiceModel
  import opened InfrastructurePort

  /** The application every other application replicates from. */
  const MASTER: string := "master"

  // ---------------------------------------------------------------------------
  // Errors

  /** The errors the application service reports to its callers. */
  datatype AppsServiceError =
    | InvalidServiceModel(serviceError: ServiceError)
    | AppNotFound(appName: string)
    | InfrastructureError(infraError: InfraError)
    | InvalidServerConfiguration(configError: ConfigError)
    | InvalidTemplateFormat(templateError: TemplateRenderError)

  /** Conversion of a configuration failure. */
  function FromConfigError(e: ConfigError): (r: AppsServiceError)
    ensures r.InvalidServerConfiguration? && r.configError == e
  {
    InvalidServerConfiguration(e)
  }

  /** Conversion of a backend failure. */
  function FromInfraError(e: InfraError): (r: AppsServiceError)
    ensures r.InfrastructureError? && r.infraError == e
  {
    InfrastructureError(e)
  }

  /** Conversion of a template rendering failure. */
  function FromTemplateError(e: TemplateRenderError): (r: AppsServiceError)
    ensures r.InvalidTemplateFormat? && r.templateError == e
  {
    InvalidTemplateFormat(e)
  }

  /** A backend answer as the service passes it on: the value, or the converted failure. */
  function FromInfraResult<T>(r: Result<T, InfraError>): (r': Result<T, AppsServiceError>)
    ensures r'.Ok? <==> r.Ok?
    ensures r.Ok? ==> r'.value == r.value
    ensures r.Err? ==> r'.error == InfrastructureError(r.error)
  {
    match r
    case Ok(v) => Ok(v)
    case Err(e) => Err(FromInfraError(e))
  }

  /**
   * Each conversion keeps its cause and lands in a variant of its own:
   * no two lower-layer failures become the same service error.
   */
  lemma ErrorConversionsAreInjectiveAndDisjoint(c: ConfigError, i: InfraError, t: TemplateRenderError,
                                                c': ConfigError, i': InfraError, t': TemplateRenderError)
    ensures FromConfigError(c) == FromConfigError(c') ==> c == c'
    ensures FromInfraError(i) == FromInfraError(i') ==> i == i'
    ensures FromTemplateError(t) == FromTemplateError(t') ==> t == t'
    ensures FromConfigError(c) != FromInfraError(i)
    ensures FromConfigError(c) != FromTemplateError(t)
    ensures FromInfraError(i) != FromTemplateError(t)
  {
  }

  // ---------------------------------------------------------------------------
  // Replication from the master application

  /** The first configuration named `name`, if any. */
  function FindByName(configs: seq<ServiceConfig>, name: string): (r: Option<ServiceConfig>)
    ensures r.None? <==> forall i :: 0 <= i < |configs| ==> configs[i].serviceName != name
    ensures r.Some? ==> exists i :: 0 <= i < |configs| && configs[i] == r.value && configs[i].serviceName == name
                                  && forall j :: 0 <= j < i ==> configs[j].serviceName != name
  {
    if configs == [] then None
    else if configs[0].serviceName == name then Some(configs[0])
    else
      var r := FindByName(configs[1..], name);
      assert r.Some? ==> exists i :: 1 <= i < |configs| && configs[i] == r.value && configs[i].serviceName == name
                                    && forall j :: 0 <= j < i ==> configs[j].serviceName != name by {
        if r.Some? {
          var i :| 0 <= i < |configs[1..]| && configs[1..][i] == r.value && configs[1..][i].serviceName == name
                   && forall j :: 0 <= j < i ==> configs[1..][j].serviceName != name;
          assert configs[i + 1] == r.value && configs[i + 1].serviceName == name;
          forall j | 0 <= j < i + 1 ensures configs[j].serviceName != name {
            if j > 0 { assert configs[j] == configs[1..][j - 1]; }
          }
        }
      }
      r
  }

  /** A master configuration is replicated when the caller supplied no configuration of that name. */
  predicate IsReplicable(requested: seq<ServiceConfig>, config: ServiceConfig)
    ensures IsReplicable(requested, config) <==>
            forall i :: 0 <= i < |requested| ==> requested[i].serviceName != config.serviceName
  {
    FindByName(requested, config.serviceName).None?
  }

  /** A clone of `config` marked as a replica. */
  function AsReplica(config: ServiceConfig): (r: ServiceConfig)
    ensures r.containerType == Replica
    ensures r.serviceName == config.serviceName && r.params == config.params
  {
    config.(containerType := Replica)
  }

  /**
   * The replicas appended for an application that is not master: the master
   * configurations whose names the caller did not supply, in master order,
   * marked as replicas and otherwise unchanged.
   */
  function Replicas(master: seq<ServiceConfig>, requested: seq<ServiceConfig>): (r: seq<ServiceConfig>)
    ensures |r| <= |master|
  {
    if master == [] then []
    else
      var last := master[|master| - 1];
      Replicas(master[..|master| - 1], requested) + (if IsReplicable(requested, last) then [AsReplica(last)] else [])
  }

  /**
   * Every replica is a master configuration the caller did not override,
   * marked as a replica and otherwise unchanged.
   */
  lemma {:induction false} ReplicasSound(master: seq<ServiceConfig>, requested: seq<ServiceConfig>)
    ensures forall i :: 0 <= i < |Replicas(master, requested)| ==>
              && Replicas(master, requested)[i].containerType == Replica
              && IsReplicable(requested, Replicas(master, requested)[i])
              && exists j :: 0 <= j < |master| && Replicas(master, requested)[i] == AsReplica(master[j])
    decreases |master|
  {
    if master != [] {
      var init := master[..|master| - 1];
      var last := master[|master| - 1];
      ReplicasSound(init, requested);
      var front := Replicas(init, requested);
      var r := Replicas(master, requested);
      assert r == front + (if IsReplicable(requested, last) then [AsReplica(last)] else []);
      forall i | 0 <= i < |r|
        ensures r[i].containerType == Replica && IsReplicable(requested, r[i])
        ensures exists j :: 0 <= j < |master| && r[i] == AsReplica(master[j])
      {
        if i < |front| {
          assert r[i] == front[i];
          var j :| 0 <= j < |init| && front[i] == AsReplica(init[j]);
          assert init[j] == master[j];
        } else {
          assert r[i] == AsReplica(last);
        }
      }
    }
  }

  /** Every master configuration the caller did not override has its replica among the replicas. */
  lemma {:induction false} ReplicasComplete(master: seq<ServiceConfig>, requested: seq<ServiceConfig>)
    ensures forall j :: 0 <= j < |master| && IsReplicable(requested, master[j]) ==>
              AsReplica(master[j]) in Replicas(master, requested)
    decreases |master|
  {
    if master != [] {
      var init := master[..|master| - 1];
      ReplicasComplete(init, requested);
      forall j | 0 <= j < |init| ensures init[j] == master[j] { }
    }
  }

  /** Replication distributes over concatenation: the order of the master list is kept. */
  lemma {:induction false} ReplicasAppend(a: seq<ServiceConfig>, b: seq<ServiceConfig>, requested: seq<ServiceConfig>)
    ensures Replicas(a + b, requested) == Replicas(a, requested) + Replicas(b, requested)
    decreases |b|
  {
    if b == [] {
      assert a + b == a;
    } else {
      var init := b[..|b| - 1];
      var last := b[|b| - 1];
      assert (a + b)[..|a + b| - 1] == a + init;
      assert (a + b)[|a + b| - 1] == last;
      ReplicasAppend(a, init, requested);
    }
  }

  /** Replicating one master configuration yields its replica exactly when the caller did not override it. */
  lemma ReplicasOfOne(config: ServiceConfig, requested: seq<ServiceConfig>)
    ensures Replicas([config], requested) == if IsReplicable(requested, config) then [AsReplica(config)] else []
  {
    assert [config][..0] == [];
  }

  /**
   * The configurations before companions: the caller's list, followed, for
   * an application other than master, by the replicas. A failed master
   * query is a backend failure; for master the query is not consulted.
   */
  function WithReplicas(appName: string, serviceConfigs: seq<ServiceConfig>,
                        masterConfigs: Result<seq<ServiceConfig>, InfraError>): (r: Result<seq<ServiceConfig>, AppsServiceError>)
    ensures r.Ok? ==> |serviceConfigs| <= |r.value| && r.value[..|serviceConfigs|] == serviceConfigs
    ensures r.Err? ==> r.error.InfrastructureError?
  {
    if appName == MASTER then Ok(serviceConfigs)
    else match masterConfigs
      case Err(e) => Err(FromInfraError(e))
      case Ok(m) => Ok(serviceConfigs + Replicas(m, serviceConfigs))
  }

  /** For master the list before companions is the caller's, whatever the master query would answer. */
  lemma MasterGetsNoReplicas(serviceConfigs: seq<ServiceConfig>, q: Result<seq<ServiceConfig>, InfraError>)
    ensures WithReplicas(MASTER, serviceConfigs, q) == Ok(serviceConfigs)
  {
  }

  /**
   * For any other application, whatever follows the caller's list before
   * companions is exactly the replicas of the master answer.
   */
  lemma OtherAppsGetReplicas(appName: string, serviceConfigs: seq<ServiceConfig>, q: Result<seq<ServiceConfig>, InfraError>)
    requires appName != MASTER
    ensures q.Ok? <==> WithReplicas(appName, serviceConfigs, q).Ok?
    ensures q.Ok? ==> WithReplicas(appName, serviceConfigs, q).value[|serviceConfigs|..] == Replicas(q.value, serviceConfigs)
    ensures q.Err? ==> WithReplicas(appName, serviceConfigs, q) == Err(InfrastructureError(q.error))
  {
  }

  /**
   * A caller configuration wins a name clash: before companions, every
   * configuration bearing the name of a caller configuration is one of the
   * caller's own.
   */
  lemma {:induction false} CallerWinsNameClash(appName: string, serviceConfigs: seq<ServiceConfig>,
                                               q: Result<seq<ServiceConfig>, InfraError>, pre: seq<ServiceConfig>, k: nat)
    requires WithReplicas(appName, serviceConfigs, q) == Ok(pre)
    requires k < |serviceConfigs|
    ensures forall i :: 0 <= i < |pre| && pre[i].serviceName == serviceConfigs[k].serviceName ==> i < |serviceConfigs|
  {
    if appName != MASTER {
      var reps := Replicas(q.value, serviceConfigs);
      assert pre == serviceConfigs + reps;
      ReplicasSound(q.value, serviceConfigs);
      forall i | |serviceConfigs| <= i < |pre| ensures pre[i].serviceName != serviceConfigs[k].serviceName {
        assert pre[i] == reps[i - |serviceConfigs|];
        assert IsReplicable(serviceConfigs, reps[i - |serviceConfigs|]);
      }
    }
  }

  /**
   * The filter looks at the caller's list only, never at the list being
   * built: two master configurations of the same name are both replicated.
   */
  lemma DuplicateMasterNamesAreBothReplicated(x: ServiceConfig, y: ServiceConfig, requested: seq<ServiceConfig>)
    requires x.serviceName == y.serviceName
    requires IsReplicable(requested, x)
    ensures Replicas([x, y], requested) == [AsReplica(x), AsReplica(y)]
  {
    ReplicasAppend([x], [y], requested);
    ReplicasOfOne(x, requested);
    ReplicasOfOne(y, requested);
  }

  // ---------------------------------------------------------------------------
  // Application companions

  /** The rendering of a companion template for an application, given the configurations so far. */
  type Templating = (ServiceConfig, string, seq<ServiceConfig>) -> Result<ServiceConfig, TemplateRenderError>

  /**
   * Resolves the templates one after another, each against the list that
   * already holds the companions before it; the first failure aborts.
   */
  function ApplyCompanions(templates: seq<ServiceConfig>, appName: string, configs: seq<ServiceConfig>,
                           templating: Templating): (r: Result<seq<ServiceConfig>, TemplateRenderError>)
    ensures r.Ok? ==> |r.value| == |configs| + |templates| && r.value[..|configs|] == configs
    decreases |templates|
  {
    if templates == [] then Ok(configs)
    else match templating(templates[0], appName, configs)
      case Err(e) => Err(e)
      case Ok(c) =>
        var r := ApplyCompanions(templates[1..], appName, configs + [c], templating);
        assert r.Ok? ==> r.value[..|configs|] == (configs + [c])[..|configs|] by {
          if r.Ok? { assert r.value[..|configs|] == r.value[..|configs| + 1][..|configs|]; }
        }
        r
  }

  /**
   * An independent description of a successful companion step: `r` is
   * `base` followed by one companion per template, and template `i`
   * renders to companion `i` against `base` plus companions `0..i-1`.
   */
  ghost predicate CompanionChain(templates: seq<ServiceConfig>, appName: string, base: seq<ServiceConfig>,
                                 r: seq<ServiceConfig>, templating: Templating)
  {
    && |r| == |base| + |templates|
    && r[..|base|] == base
    && forall i :: 0 <= i < |templates| ==>
         templating(templates[i], appName, r[..|base| + i]) == Ok(r[|base| + i])
  }

  /** The companion step succeeds with `r` exactly when `r` is a companion chain. */
  lemma {:induction false} ApplyCompanionsIsChain(templates: seq<ServiceConfig>, appName: string, base: seq<ServiceConfig>,
                                                  r: seq<ServiceConfig>, templating: Templating)
    ensures ApplyCompanions(templates, appName, base, templating) == Ok(r) <==> CompanionChain(templates, appName, base, r, templating)
    decreases |templates|
  {
    if templates == [] {
      if CompanionChain(templates, appName, base, r, templating) {
        assert r == r[..|base|];
      }
    } else {
      var n := |base|;
      var rest := templates[1..];
      if ApplyCompanions(templates, appName, base, templating) == Ok(r) {
        var c := templating(templates[0], appName, base).value;
        ApplyCompanionsIsChain(rest, appName, base + [c], r, templating);
        assert r[..n + 1] == base + [c];
        assert r[..n] == r[..n + 1][..n];
        forall i | 0 <= i < |templates|
          ensures templating(templates[i], appName, r[..n + i]) == Ok(r[n + i])
        {
          if i > 0 {
            assert templates[i] == rest[i - 1];
            assert |base + [c]| + (i - 1) == n + i;
          }
        }
      }
      if CompanionChain(templates, appName, base, r, templating) {
        assert templating(templates[0], appName, r[..n]) == Ok(r[n]);
        var c := r[n];
        assert r[..n + 1] == base + [c];
        forall i | 0 <= i < |rest|
          ensures templating(rest[i], appName, r[..|base + [c]| + i]) == Ok(r[|base + [c]| + i])
        {
          assert rest[i] == templates[i + 1];
        }
        assert CompanionChain(rest, appName, base + [c], r, templating);
        ApplyCompanionsIsChain(rest, appName, base + [c], r, templating);
      }
    }
  }

  // ---------------------------------------------------------------------------
  // The full resolution

  /**
   * The desired state of `appName`: the list handed to `start_services`, or
   * the error that stops the call before the backend is asked to act.
   * Failures are checked in the order the source meets them: master query,
   * loading the companion templates, rendering each template.
   */
  function ResolveConfigs(appName: string, serviceConfigs: seq<ServiceConfig>,
                          masterConfigs: Result<seq<ServiceConfig>, InfraError>,
                          companions: Result<seq<ServiceConfig>, ConfigError>,
                          templating: Templating): (r: Result<seq<ServiceConfig>, AppsServiceError>)
    ensures r.Ok? ==> |serviceConfigs| <= |r.value| && r.value[..|serviceConfigs|] == serviceConfigs
  {
    match WithReplicas(appName, serviceConfigs, masterConfigs)
    case Err(e) => Err(e)
    case Ok(pre) =>
      match companions
      case Err(e) => Err(FromConfigError(e))
      case Ok(templates) =>
        match ApplyCompanions(templates, appName, pre, templating)
        case Err(e) => Err(FromTemplateError(e))
        case Ok(configs) =>
          assert configs[..|serviceConfigs|] == configs[..|pre|][..|serviceConfigs|];
          Ok(configs)
  }

  /**
   * On success the resolved list is the list before companions followed by
   * exactly one companion per template, rendered in load order against the
   * list so far.
   */
  lemma CompanionsInLoadOrder(appName: string, serviceConfigs: seq<ServiceConfig>,
                              masterConfigs: Result<seq<ServiceConfig>, InfraError>,
                              companions: Result<seq<ServiceConfig>, ConfigError>,
                              templating: Templating, r: seq<ServiceConfig>)
    requires ResolveConfigs(appName, serviceConfigs, masterConfigs, companions, templating) == Ok(r)
    ensures WithReplicas(appName, serviceConfigs, masterConfigs).Ok? && companions.Ok?
    ensures CompanionChain(companions.value, appName, WithReplicas(appName, serviceConfigs, masterConfigs).value, r, templating)
  {
    ApplyCompanionsIsChain(companions.value, appName, WithReplicas(appName, serviceConfigs, masterConfigs).value, r, templating);
  }

  /** Which failure is reported, and when: each error kind names the step that failed. */
  lemma ResolutionErrors(appName: string, serviceConfigs: seq<ServiceConfig>,
                         masterConfigs: Result<seq<ServiceConfig>, InfraError>,
                         companions: Result<seq<ServiceConfig>, ConfigError>,
                         templating: Templating)
    ensures var r := ResolveConfigs(appName, serviceConfigs, masterConfigs, companions, templating);
            && (r.Err? && r.error.InfrastructureError? <==> appName != MASTER && masterConfigs.Err?)
            && (r.Err? && r.error.InvalidServerConfiguration? <==>
                  WithReplicas(appName, serviceConfigs, masterConfigs).Ok? && companions.Err?)
            && (r.Err? && r.error.InvalidTemplateFormat? <==>
                  WithReplicas(appName, serviceConfigs, masterConfigs).Ok? && companions.Ok? &&
                  ApplyCompanions(companions.value, appName, WithReplicas(appName, serviceConfigs, masterConfigs).value, templating).Err?)
            && (r.Err? ==> !r.error.AppNotFound? && !r.error.InvalidServiceModel?)
  {
  }

  /**
   * The worked example of a review application: master runs `web` and `db`,
   * the caller overrides `web`; before companions the list is the caller's
   * `web` followed by a replica of master's `db`.
   */
  lemma ReviewAppExample(webImage: RuntimeParams, dbImage: RuntimeParams, overridden: RuntimeParams)
    ensures var web := ServiceConfig("web", Primary, webImage);
            var db := ServiceConfig("db", Primary, dbImage);
            var mine := ServiceConfig("web", Primary, overridden);
            WithReplicas("review-1", [mine], Ok([web, db])) == Ok([mine, ServiceConfig("db", Replica, dbImage)])
  {
    var web := ServiceConfig("web", Primary, webImage);
    var db := ServiceConfig("db", Primary, dbImage);
    var mine := ServiceConfig("web", Primary, overridden);
    assert "review-1" != MASTER by { assert "review-1"[0] != MASTER[0]; }
    assert "db" != "web" by { assert "db"[0] != "web"[0]; }
    assert [mine][1..] == [];
    assert IsReplicable([mine], db) && !IsReplicable([mine], web);
    assert [web] + [db] == [web, db];
    ReplicasAppend([web], [db], [mine]);
    ReplicasOfOne(web, [mine]);
    ReplicasOfOne(db, [mine]);
    assert Replicas([web, db], [mine]) == [ServiceConfig("db", Replica, dbImage)];
    assert WithReplicas("review-1", [mine], Ok([web, db])) == Ok([mine] + Replicas([web, db], [mine]));
    assert [mine] + [ServiceConfig("db", Replica, dbImage)] == [mine, ServiceConfig("db", Replica, dbImage)];
  }

  // ---------------------------------------------------------------------------
  // Deletion

  /**
   * The answer of `delete_app`: a failed enumeration is a backend failure,
   * an application without an entry is not found, and otherwise the answer
   * of the stop request is passed on.
   */
  function DeleteOutcome(running: Result<map<string, seq<Service>>, InfraError>,
                         stopped: Result<seq<Service>, InfraError>, appName: string): (r: Result<seq<Service>, AppsServiceError>)
    ensures r.Ok? ==> running.Ok? && appName in running.value && stopped == Ok(r.value)
    ensures r.Err? && r.error.AppNotFound? ==> r.error.appName == appName
  {
    match running
    case Err(e) => Err(FromInfraError(e))
    case Ok(apps) =>
      if appName !in apps then Err(AppNotFound(appName))
      else FromInfraResult(stopped)
  }

  /** Deletion reports `AppNotFound` exactly when the enumeration succeeded without an entry for the application. */
  lemma DeleteNotFoundIff(running: Result<map<string, seq<Service>>, InfraError>,
                          stopped: Result<seq<Service>, InfraError>, appName: string)
    ensures DeleteOutcome(running, stopped, appName) == Err(AppNotFound(appName)) <==>
            running.Ok? && appName !in running.value
    ensures running.Err? ==> DeleteOutcome(running, stopped, appName) == Err(InfrastructureError(running.error))
    ensures running.Ok? && appName in running.value ==> DeleteOutcome(running, stopped, appName) == FromInfraResult(stopped)
  {
  }

  // ---------------------------------------------------------------------------
  // The service

  class AppsService {
    /** The configured application-companion templates, or the failure to load them. */
    const companions: Result<seq<ServiceConfig>, ConfigError>
    /** The process-wide container configuration. */
    const containerConfig: ContainerConfig
    /** The backend. */
    const infrastructure: Infrastructure
    /** The template engine for application companions. */
    const templating: Templating

    constructor (companions: Result<seq<ServiceConfig>, ConfigError>, containerConfig: ContainerConfig,
                 infrastructure: Infrastructure, templating: Templating)
      ensures this.companions == companions && this.containerConfig == containerConfig
      ensures this.infrastructure == infrastructure && this.templating == templating
    {
      this.companions := companions;
      this.containerConfig := containerConfig;
      this.infrastructure := infrastructure;
      this.templating := templating;
    }

    /** The running services grouped by application, passed through from the backend. */
    method GetApps() returns (r: Result<map<string, seq<Service>>, AppsServiceError>)
      ensures infrastructure.services.Ok? ==> r == Ok(infrastructure.services.value)
      ensures infrastructure.services.Err? ==> r == Err(InfrastructureError(infrastructure.services.error))
    {
      var services := infrastructure.GetServices();
      r := FromInfraResult(services);
    }

    /**
     * Builds the desired list of configurations and asks the backend to run
     * it. The backend receives exactly one start request when resolution
     * succeeds and none when it fails; the answer is the backend's.
     */
    method CreateOrUpdate(appName: string, serviceConfigs: seq<ServiceConfig>)
      returns (r: Result<seq<Service>, AppsServiceError>)
      modifies infrastructure
      ensures infrastructure.stopCalls == old(infrastructure.stopCalls)
      ensures var resolved := ResolveConfigs(appName, serviceConfigs, infrastructure.configsOfApp(MASTER), companions, templating);
              && (resolved.Err? ==> r == Err(resolved.error) && infrastructure.startCalls == old(infrastructure.startCalls))
              && (resolved.Ok? ==>
                    && infrastructure.startCalls == old(infrastructure.startCalls) + [StartCall(appName, resolved.value, containerConfig)]
                    && r == FromInfraResult(infrastructure.startOutcome(appName, resolved.value, containerConfig)))
    {
      var configs := serviceConfigs;

      if appName != MASTER {
        var master := infrastructure.GetConfigsOfApp(MASTER);
        if master.Err? {
          return Err(FromInfraError(master.error));
        }
        var m := master.value;
        var i := 0;
        while i < |m|
          invariant 0 <= i <= |m|
          invariant configs == serviceConfigs + Replicas(m[..i], serviceConfigs)
        {
          if IsReplicable(serviceConfigs, m[i]) {
            configs := configs + [AsReplica(m[i])];
          }
          assert m[..i + 1][..i] == m[..i];
          i := i + 1;
        }
        assert m[..|m|] == m;
      }
      assert WithReplicas(appName, serviceConfigs, infrastructure.configsOfApp(MASTER)) == Ok(configs);

      if companions.Err? {
        return Err(FromConfigError(companions.error));
      }
      var templates := companions.value;
      ghost var base := configs;
      var k := 0;
      while k < |templates|
        invariant 0 <= k <= |templates|
        invariant ApplyCompanions(templates[k..], appName, configs, templating) == ApplyCompanions(templates, appName, base, templating)
      {
        var applied := templating(templates[k], appName, configs);
        assert templates[k..][1..] == templates[k + 1..];
        if applied.Err? {
          return Err(FromTemplateError(applied.error));
        }
        configs := configs + [applied.value];
        k := k + 1;
      }

      var services := infrastructure.StartServices(appName, configs, containerConfig);
      r := FromInfraResult(services);
    }

    /**
     * Deletes every service of `appName`. The backend receives a stop request
     * exactly when its enumeration succeeds and lists the application.
     */
    method DeleteApp(appName: string) returns (r: Result<seq<Service>, AppsServiceError>)
      modifies infrastructure
      ensures infrastructure.startCalls == old(infrastructure.startCalls)
      ensures var found := infrastructure.services.Ok? && appName in infrastructure.services.value;
              infrastructure.stopCalls == old(infrastructure.stopCalls) + (if found then [appName] else [])
      ensures r == DeleteOutcome(infrastructure.services, infrastructure.stopOutcome(appName), appName)
    {
      var running := infrastructure.GetServices();
      match running
      case Err(e) =>
        r := Err(FromInfraError(e));
      case Ok(apps) =>
        if appName !in apps {
          r := Err(AppNotFound(appName));
        } else {
          var stopped := infrastructure.StopServices(appName);
          r := FromInfraResult(stopped);
        }
    }
  }
}
