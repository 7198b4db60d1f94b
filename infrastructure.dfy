/**
 * The infrastructure port: the backend that enumerates, starts and stops
 * containers. Its answers are given values fixed at construction; the
 * ghost logs record every start and stop request, so that callers can
 * state whether the backend was asked to act and with which arguments.
 */
module InfrastructurePort {
  import opened Wrappers
  import opened ServiceModel

  /** The arguments of one `start_services` request. */
  datatype StartCall = StartCall(appName: string, configs: seq<ServiceConfig>, containerConfig: ContainerConfig)

  class Infrastructure {
    /** What `get_services` answers: running services grouped by application, or a failure. */
    const services: Result<map<string, seq<Service>>, InfraError>
    /** What `get_configs_of_app` answers for each application name. */
    const configsOfApp: string -> Result<seq<ServiceConfig>, InfraError>
    /** What `start_services` answers for given arguments. */
    const startOutcome: (string, seq<ServiceConfig>, ContainerConfig) -> Result<seq<Service>, InfraError>
    /** What `stop_services` answers for an application name. */
    const stopOutcome: string -> Result<seq<Service>, InfraError>

    /** Every start request received, oldest first. */
    ghost var startCalls: seq<StartCall>
    /** Every stop request received, oldest first. */
    ghost var stopCalls: seq<string>

    constructor (
      services: Result<map<string, seq<Service>>, InfraError>,
      configsOfApp: string -> Result<seq<ServiceConfig>, InfraError>,
      startOutcome: (string, seq<ServiceConfig>, ContainerConfig) -> Result<seq<Service>, InfraError>,
      stopOutcome: string -> Result<seq<Service>, InfraError>)
      ensures this.services == services && this.configsOfApp == configsOfApp
      ensures this.startOutcome == startOutcome && this.stopOutcome == stopOutcome
      ensures startCalls == [] && stopCalls == []
    {
      this.services := services;
      this.configsOfApp := configsOfApp;
      this.startOutcome := startOutcome;
      this.stopOutcome := stopOutcome;
      startCalls := [];
      stopCalls := [];
    }

    /** Queries the running services; asks the backend to change nothing. */
    method GetServices() returns (r: Result<map<string, seq<Service>>, InfraError>)
      ensures r == services
    {
      r := services;
    }

    /** Queries the configurations the backend runs for `appName`; asks it to change nothing. */
    method GetConfigsOfApp(appName: string) returns (r: Result<seq<ServiceConfig>, InfraError>)
      ensures r == configsOfApp(appName)
    {
      r := configsOfApp(appName);
    }

    /** Asks the backend to run `configs` for `appName`; the request is logged. */
    method StartServices(appName: string, configs: seq<ServiceConfig>, containerConfig: ContainerConfig)
      returns (r: Result<seq<Service>, InfraError>)
      modifies this
      ensures startCalls == old(startCalls) + [StartCall(appName, configs, containerConfig)]
      ensures stopCalls == old(stopCalls)
      ensures r == startOutcome(appName, configs, containerConfig)
    {
      startCalls := startCalls + [StartCall(appName, configs, containerConfig)];
      r := startOutcome(appName, configs, containerConfig);
    }

    /** Asks the backend to stop every service of `appName`; the request is logged. */
    method StopServices(appName: string) returns (r: Result<seq<Service>, InfraError>)
      modifies this
      ensures stopCalls == old(stopCalls) + [appName]
      ensures startCalls == old(startCalls)
      ensures r == stopOutcome(appName)
    {
      stopCalls := stopCalls + [appName];
      r := stopOutcome(appName);
    }
  }
}
