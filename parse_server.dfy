/**
 * The parts of a Noodl parse-server handle that the cloud-function code reads:
 * the backend identity and credentials (`options`) and the cloud-function
 * limits (`functionOptions`).
 */
module ParseServer {
  import opened Wrappers

  /** `noodlServer.options`: application id, master key and REST endpoint. */
  datatype ServerOptions = ServerOptions(appId: string, masterKey: string, serverURL: string)

  /**
   * `noodlServer.functionOptions`. A setting the configuration leaves out is `None`;
   * JavaScript numbers are modelled by `int`.
   */
  datatype FunctionOptions = FunctionOptions(timeOut: Option<int>, memoryLimit: Option<int>)

  datatype NoodlServer = NoodlServer(options: ServerOptions, functionOptions: FunctionOptions)

  /** The two headers every backend call carries: `X-Parse-Application-Id` and `X-Parse-Master-Key`. */
  datatype Headers = Headers(applicationId: string, masterKey: string)

  function MasterKeyHeaders(options: ServerOptions): Headers {
    Headers(options.appId, options.masterKey)
  }
}
