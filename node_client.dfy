/**
 * SPQRNodeClient: the resource manager's client for one processing node.  It is built from a
 * protocol, a host and two ports, from which it derives the base URLs of the node's service
 * and admin APIs; each request first checks its input, answering without any request when the
 * input is unusable, and otherwise addresses the pipelines resource under the service base URL.
 * The HTTP transport is a function parameter: it yields the node's response, or nothing for
 * any failure of the remote call.
 */
module NodeClient {
  import opened Common
  import opened Text

  /** MicroPipelineValidationResult: OK, MISSING_PIPELINE_ID, and the other values the validator
      may give, which this client only passes on. */
  datatype ValidationResult = OK | MISSING_PIPELINE_ID | Rejected(name: string)

  /** MicroPipelineShutdownState: PIPELINE_ID_MISSING and the states reported by the node. */
  datatype ShutdownState = PIPELINE_ID_MISSING | Reported(name: string)

  datatype PipelineConfiguration =
    PipelineConfiguration(id: Option<string>, queues: seq<string>, components: seq<string>, statsCollectionTimer: int)

  datatype InstantiationResponse = InstantiationResponse(pipelineId: Option<string>, state: ValidationResult, message: Option<string>)

  datatype ShutdownResponse = ShutdownResponse(pipelineId: Option<string>, state: ShutdownState, message: Option<string>)

  /** The RequiredInputMissingException messages of the constructor. */
  datatype ClientInputMissing = MissingProtocol | MissingRemoteHost | MissingServicePort | MissingAdminPort | MissingClient

  /** What a request can throw: the RemoteClientConnectionFailedException naming the URL used, or
      the NullPointerException of reading the id of a null configuration the validator let pass. */
  datatype RequestError = RemoteClientConnectionFailed(url: string) | NullConfiguration

  /** The two base URLs the client derives; the JAX-RS client it holds is the transport. */
  datatype SPQRNodeClient = SPQRNodeClient(processingNodeServiceBaseUrl: string, processingNodeAdminBaseUrl: string)

  /** `protocol://host:port` */
  function BaseUrl(protocol: string, remoteHost: string, port: int): string {
    protocol + "://" + remoteHost + ":" + IntToString(port)
  }

  /** The constructor: protocol, host, service port, admin port and client are checked in that
      order and the first missing one is reported; otherwise the base URLs are built. */
  function Create(protocol: Option<string>, remoteHost: Option<string>, servicePort: int, adminPort: int, hasClient: bool)
    : (r: Result<SPQRNodeClient, ClientInputMissing>)
    ensures r.Success? <==> !IsBlank(protocol) && !IsBlank(remoteHost) && servicePort >= 1 && adminPort >= 1 && hasClient
    ensures IsBlank(protocol) ==> r == Failure(MissingProtocol)
    ensures !IsBlank(protocol) && IsBlank(remoteHost) ==> r == Failure(MissingRemoteHost)
    ensures !IsBlank(protocol) && !IsBlank(remoteHost) && servicePort < 1 ==> r == Failure(MissingServicePort)
    ensures !IsBlank(protocol) && !IsBlank(remoteHost) && servicePort >= 1 && adminPort < 1 ==> r == Failure(MissingAdminPort)
    ensures !IsBlank(protocol) && !IsBlank(remoteHost) && servicePort >= 1 && adminPort >= 1 && !hasClient ==> r == Failure(MissingClient)
    ensures r.Success? ==>
      && r.value.processingNodeServiceBaseUrl == protocol.value + "://" + remoteHost.value + ":" + NatToString(servicePort)
      && r.value.processingNodeAdminBaseUrl == protocol.value + "://" + remoteHost.value + ":" + NatToString(adminPort)
  {
    if IsBlank(protocol) then Failure(MissingProtocol)
    else if IsBlank(remoteHost) then Failure(MissingRemoteHost)
    else if servicePort < 1 then Failure(MissingServicePort)
    else if adminPort < 1 then Failure(MissingAdminPort)
    else if !hasClient then Failure(MissingClient)
    else Success(SPQRNodeClient(BaseUrl(protocol.value, remoteHost.value, servicePort), BaseUrl(protocol.value, remoteHost.value, adminPort)))
  }

  /** Distinct natural numbers have distinct decimal forms. */
  lemma NatToStringInjective(a: nat, b: nat)
    requires NatToString(a) == NatToString(b)
    ensures a == b
  {
    DigitsValueOfNatToString(a);
    DigitsValueOfNatToString(b);
  }

  /** The service and admin APIs share a base URL exactly when they share a port. */
  lemma BaseUrlsCoincideIffPortsDo(protocol: Option<string>, remoteHost: Option<string>, servicePort: int, adminPort: int, hasClient: bool)
    requires Create(protocol, remoteHost, servicePort, adminPort, hasClient).Success?
    ensures var c := Create(protocol, remoteHost, servicePort, adminPort, hasClient).value;
      c.processingNodeServiceBaseUrl == c.processingNodeAdminBaseUrl <==> servicePort == adminPort
  {
    var c := Create(protocol, remoteHost, servicePort, adminPort, hasClient).value;
    var prefix := protocol.value + "://" + remoteHost.value + ":";
    if c.processingNodeServiceBaseUrl == c.processingNodeAdminBaseUrl {
      assert c.processingNodeServiceBaseUrl[|prefix|..] == NatToString(servicePort);
      assert c.processingNodeAdminBaseUrl[|prefix|..] == NatToString(adminPort);
      NatToStringInjective(servicePort, adminPort);
    }
  }

  /** The resource pipelines are created under. */
  function PipelinesUrl(client: SPQRNodeClient): string {
    client.processingNodeServiceBaseUrl + "/pipelines"
  }

  /** The resource of one pipeline. */
  function PipelineUrl(client: SPQRNodeClient, pipelineId: string): string {
    client.processingNodeServiceBaseUrl + "/pipelines/" + pipelineId
  }

  /** A pipeline's resource lies directly below the pipelines resource, and different pipeline
      ids address different resources. */
  lemma PipelineUrlBelowPipelinesUrl(client: SPQRNodeClient, a: string, b: string)
    ensures PipelineUrl(client, a) == PipelinesUrl(client) + "/" + a
    ensures PipelineUrl(client, a) == PipelineUrl(client, b) <==> a == b
  {
    var prefix := client.processingNodeServiceBaseUrl + "/pipelines/";
    if PipelineUrl(client, a) == PipelineUrl(client, b) {
      assert PipelineUrl(client, a)[|prefix|..] == a;
      assert PipelineUrl(client, b)[|prefix|..] == b;
    }
  }

  const VALIDATION_FAILED_MESSAGE: string := "Failed to validate pipeline configuration"
  const MISSING_ID_MESSAGE: string := "Failed to generated unique pipeline identifier"
  const MISSING_SHUTDOWN_ID_MESSAGE: string := "Missing required pipeline identifier"

  /** The checks instantiatePipeline and updatePipeline share: the validator's verdict, then the
      id.  `None` means the request may be sent. */
  function PreCheck(validate: Option<PipelineConfiguration> -> ValidationResult, configuration: Option<PipelineConfiguration>)
    : (r: Option<Result<InstantiationResponse, RequestError>>)
    ensures validate(configuration) != OK ==>
      r == Some(Success(InstantiationResponse(Some(""), validate(configuration), Some(VALIDATION_FAILED_MESSAGE))))
    ensures validate(configuration) == OK && configuration.None? ==> r == Some(Failure(NullConfiguration))
    ensures validate(configuration) == OK && configuration.Some? && IsBlank(configuration.value.id) ==>
      r == Some(Success(InstantiationResponse(Some(""), MISSING_PIPELINE_ID, Some(MISSING_ID_MESSAGE))))
    ensures r.None? <==> validate(configuration) == OK && configuration.Some? && !IsBlank(configuration.value.id)
  {
    var verdict := validate(configuration);
    if verdict != OK then Some(Success(InstantiationResponse(Some(""), verdict, Some(VALIDATION_FAILED_MESSAGE))))
    else if configuration.None? then Some(Failure(NullConfiguration))
    else if IsBlank(configuration.value.id) then Some(Success(InstantiationResponse(Some(""), MISSING_PIPELINE_ID, Some(MISSING_ID_MESSAGE))))
    else None
  }

  /** Sends a request and turns a failed call into RemoteClientConnectionFailed naming the URL. */
  function Call<R>(url: string, response: Option<R>): (r: Result<R, RequestError>)
    ensures response.Some? ==> r == Success(response.value)
    ensures response.None? ==> r == Failure(RemoteClientConnectionFailed(url))
  {
    match response
    case Some(v) => Success(v)
    case None => Failure(RemoteClientConnectionFailed(url))
  }

  /** instantiatePipeline: after the checks, POSTs the configuration to the pipelines resource.
      `post` is the transport. */
  function InstantiatePipeline(client: SPQRNodeClient, validate: Option<PipelineConfiguration> -> ValidationResult,
                               configuration: Option<PipelineConfiguration>,
                               post: (string, PipelineConfiguration) -> Option<InstantiationResponse>)
    : (r: Result<InstantiationResponse, RequestError>)
    ensures PreCheck(validate, configuration).Some? ==> r == PreCheck(validate, configuration).value
    ensures PreCheck(validate, configuration).None? ==>
      r == Call(PipelinesUrl(client), post(PipelinesUrl(client), configuration.value))
  {
    match PreCheck(validate, configuration)
    case Some(early) => early
    case None => Call(PipelinesUrl(client), post(PipelinesUrl(client), configuration.value))
  }

  /** updatePipeline: after the same checks, PUTs the configuration to the pipeline's own
      resource. */
  function UpdatePipeline(client: SPQRNodeClient, validate: Option<PipelineConfiguration> -> ValidationResult,
                          configuration: Option<PipelineConfiguration>,
                          put: (string, PipelineConfiguration) -> Option<InstantiationResponse>)
    : (r: Result<InstantiationResponse, RequestError>)
    ensures PreCheck(validate, configuration).Some? ==> r == PreCheck(validate, configuration).value
    ensures PreCheck(validate, configuration).None? ==>
      var url := PipelineUrl(client, configuration.value.id.value);
      r == Call(url, put(url, configuration.value))
  {
    match PreCheck(validate, configuration)
    case Some(early) => early
    case None =>
      var url := PipelineUrl(client, configuration.value.id.value);
      Call(url, put(url, configuration.value))
  }

  /** shutdown(pipelineId): a blank id is answered with PIPELINE_ID_MISSING and the id as given;
      otherwise the pipeline's resource is DELETEd. */
  function ShutdownPipeline(client: SPQRNodeClient, pipelineId: Option<string>, delete: string -> Option<ShutdownResponse>)
    : (r: Result<ShutdownResponse, RequestError>)
    ensures IsBlank(pipelineId) ==> r == Success(ShutdownResponse(pipelineId, PIPELINE_ID_MISSING, Some(MISSING_SHUTDOWN_ID_MESSAGE)))
    ensures !IsBlank(pipelineId) ==>
      var url := PipelineUrl(client, pipelineId.value);
      r == Call(url, delete(url))
  {
    if IsBlank(pipelineId) then Success(ShutdownResponse(pipelineId, PIPELINE_ID_MISSING, Some(MISSING_SHUTDOWN_ID_MESSAGE)))
    else
      var url := PipelineUrl(client, pipelineId.value);
      Call(url, delete(url))
  }

  /** A configuration that passes the checks is updated and shut down at the same resource,
      which lies below the one it is instantiated at; a request that fails names that resource. */
  lemma RequestsTargetTheSamePipeline(client: SPQRNodeClient, validate: Option<PipelineConfiguration> -> ValidationResult,
                                      configuration: PipelineConfiguration)
    requires validate(Some(configuration)) == OK && !IsBlank(configuration.id)
    ensures var id := configuration.id.value;
      && UpdatePipeline(client, validate, Some(configuration), (u, c) => None) == Failure(RemoteClientConnectionFailed(PipelineUrl(client, id)))
      && ShutdownPipeline(client, configuration.id, u => None) == Failure(RemoteClientConnectionFailed(PipelineUrl(client, id)))
      && InstantiatePipeline(client, validate, Some(configuration), (u, c) => None) == Failure(RemoteClientConnectionFailed(PipelinesUrl(client)))
      && PipelineUrl(client, id) == PipelinesUrl(client) + "/" + id
  {
    PipelineUrlBelowPipelinesUrl(client, configuration.id.value, configuration.id.value);
  }

  /** The checks never let a request through for a configuration the validator refuses or one
      without an id, whatever the transport would answer. */
  lemma NoRequestWithoutValidId(client: SPQRNodeClient, validate: Option<PipelineConfiguration> -> ValidationResult,
                                configuration: Option<PipelineConfiguration>,
                                send: (string, PipelineConfiguration) -> Option<InstantiationResponse>,
                                send': (string, PipelineConfiguration) -> Option<InstantiationResponse>)
    requires validate(configuration) != OK || configuration.None? || IsBlank(configuration.value.id)
    ensures InstantiatePipeline(client, validate, configuration, send) == InstantiatePipeline(client, validate, configuration, send')
    ensures UpdatePipeline(client, validate, configuration, send) == UpdatePipeline(client, validate, configuration, send')
  {
  }
}
