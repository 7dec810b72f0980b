/**
  The entities of a docker-compose descriptor (api/docker/service.go), the
  request shapes of the two workflows (api/docker/dto.go) and the error the
  mutation engine reports. Go nil pointers are `None`; a Go map that code
  writes into is a `GoMap`, one that is only read or copied is a plain `map`.
 */
module ComposeTypes {
  import opened Wrappers
  import opened GoMaps

  datatype LoggingConfig = LoggingConfig(driver: string, options: map<string, string>)

  datatype HealthCheck = HealthCheck(
    test: seq<string>, interval: string, timeout: string, retries: int, startPeriod: string)

  datatype RestartPolicy = RestartPolicy(
    condition: string, delay: string, maxAttempts: int, window: string)

  datatype ResourceSpec = ResourceSpec(cpus: string, memory: string)

  datatype Resources = Resources(limits: Option<ResourceSpec>, reservations: Option<ResourceSpec>)

  datatype Deploy = Deploy(
    replicas: int,
    restartPolicy: Option<RestartPolicy>,
    resources: Option<Resources>,
    labels: map<string, string>)

  /** The fields of a service that no operation of the engine or the workflows inspects. */
  datatype ServiceSettings = ServiceSettings(
    image: string,
    containerName: string,
    ports: seq<string>,
    dependsOn: seq<string>,
    networks: seq<string>,
    restart: string,
    command: string,
    workingDir: string,
    user: string,
    expose: seq<string>,
    logging: Option<LoggingConfig>,
    devices: seq<string>,
    capAdd: seq<string>,
    capDrop: seq<string>,
    privileged: bool,
    securityOpt: seq<string>,
    sysctls: seq<string>,
    ulimits: map<string, string>,
    hostname: string,
    labels: map<string, string>,
    healthCheck: Option<HealthCheck>,
    deploy: Option<Deploy>)

  /**
    One workload. `environment` is written into by the insert workflow, so its
    nil-ness matters; each `volumes` entry is a mount `source:target[:mode]`.
   */
  datatype Service = Service(
    environment: GoMap<string>,
    volumes: seq<string>,
    settings: ServiceSettings)

  datatype Network = Network(driver: string, name: string, external: bool)

  datatype Volume = Volume(driver: string)

  /** `Volume{}`, the zero value. */
  const EMPTY_VOLUME := Volume("")

  /** The Go zero value of the settings. */
  const ZERO_SETTINGS := ServiceSettings(
    "", "", [], [], [], "", "", "", "", [], None, [], [], [], false, [], [], map[], "", map[], None, None)

  datatype Entity = ServiceEntity | NetworkEntity | VolumeEntity

  /** The `"<entity> '<name>' does not exist"` error of the strict operations. */
  datatype ComposeError = DoesNotExist(entity: Entity, name: string)

  /** A name with the value to store under it (the inner structs of `InsertDto`). */
  datatype Named<T> = Named(name: string, value: T)

  datatype InsertRequest = InsertRequest(
    service: Named<Service>, network: Named<Network>, volume: Named<Volume>)

  datatype DeleteRequest = DeleteRequest(name: string)
}
