/**
 * The value types the application service exchanges with its collaborators.
 * Only the service name and the container type are inspected by the core;
 * everything else is carried through unchanged.
 */
module ServiceModel {

  /** Role marker of a service configuration: where it came from. */
  datatype ContainerType = Primary | Replica | ApplicationCompanion | ServiceCompanion

  /** Runtime parameters (image, environment) that the core passes through without looking at them. */
  datatype RuntimeParams = RuntimeParams(image: string, env: seq<string>)

  /** One deployable unit: its name, its role and its opaque runtime parameters. */
  datatype ServiceConfig = ServiceConfig(serviceName: string, containerType: ContainerType, params: RuntimeParams)

  /** A running service as the backend reports it. */
  datatype Service = Service(appName: string, serviceName: string, containerId: string)

  /** Process-wide container configuration handed to the backend unchanged. */
  datatype ContainerConfig = ContainerConfig(memoryLimit: string)

  /** Lower-layer failures; each carries only a diagnostic message here. */
  datatype ServiceError = ServiceError(message: string)
  datatype ConfigError = ConfigError(message: string)
  datatype InfraError = InfraError(message: string)
  datatype TemplateRenderError = TemplateRenderError(message: string)
}
