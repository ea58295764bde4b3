/**
 * One cloud-function invocation: resolve the limits, ask the context cache for
 * an execution context keyed by backend, credentials, version and limits,
 * schedule the purge of idle contexts, hand the request to the context and
 * return its response.
 *
 * The context cache and the context's request handler are collaborators whose
 * answers are inputs; the calls made to them are recorded as events.
 */
module CloudFunction {
  import opened Wrappers
  import opened ParseServer
  import FunctionDeploy

  /** Timeout, in seconds, when the configuration gives none. */
  const DefaultTimeOut := 15
  /** Memory limit, in megabytes, when the configuration gives none. */
  const DefaultMemoryLimit := 256

  /**
   * JavaScript's `value || fallback` on a numeric setting: an unset setting
   * and 0 are falsy and give `fallback`; every other number is kept.
   */
  function OrElse(value: Option<int>, fallback: int): (r: int)
    ensures value.Some? && value.value != 0 ==> r == value.value
    ensures value.None? || value.value == 0 ==> r == fallback
  {
    if value.Some? && value.value != 0 then value.value else fallback
  }

  /** With a truthy fallback the resolved limit is never 0. */
  lemma OrElseTruthy(value: Option<int>, fallback: int)
    requires fallback != 0
    ensures OrElse(value, fallback) != 0
  {
  }

  /** The caller's logger, passed to the context cache unchanged; only its identity matters here. */
  datatype Logger = Logger(id: nat)

  /** What the context cache is asked for: the backend, its credentials, the version and the limits. */
  datatype ContextKey = ContextKey(backendEndpoint: string, appId: string, masterKey: string,
                                   version: FunctionDeploy.CFVersion, timeout: int, memoryLimit: int)

  /**
   * The key `executeFunction` asks for: the server's endpoint and credentials,
   * the caller's version, the timeout in milliseconds and the memory limit in
   * megabytes, each limit the configured one unless that is unset or 0.
   */
  function ContextKeyFor(server: NoodlServer, version: FunctionDeploy.CFVersion): (k: ContextKey)
    ensures k.backendEndpoint == server.options.serverURL
    ensures k.appId == server.options.appId && k.masterKey == server.options.masterKey
    ensures k.version == version
    ensures k.timeout == 1000 * OrElse(server.functionOptions.timeOut, DefaultTimeOut)
    ensures k.memoryLimit == OrElse(server.functionOptions.memoryLimit, DefaultMemoryLimit)
  {
    var timeOut := OrElse(server.functionOptions.timeOut, DefaultTimeOut);
    var memoryLimit := OrElse(server.functionOptions.memoryLimit, DefaultMemoryLimit);
    ContextKey(server.options.serverURL, server.options.appId, server.options.masterKey,
               version, timeOut * 1000, memoryLimit)
  }

  /** With no limits configured (or both 0) the context runs 15 s with 256 MB. */
  lemma DefaultLimits(server: NoodlServer, version: FunctionDeploy.CFVersion)
    requires server.functionOptions.timeOut in {None, Some(0)}
    requires server.functionOptions.memoryLimit in {None, Some(0)}
    ensures ContextKeyFor(server, version).timeout == 15000
    ensures ContextKeyFor(server, version).memoryLimit == 256
  {
  }

  /** The request handed to the context. */
  datatype FunctionRequest = FunctionRequest(functionId: string, headers: map<string, string>, body: string)

  /** The execution context the cache hands out, by identity. */
  datatype ContextHandle = ContextHandle(id: nat)

  /** What a collaborator's promise rejected with. */
  datatype CallError = CallError(reason: string)

  /** A call made to a collaborator. */
  datatype Event =
    | AcquireContext(key: ContextKey, logger: Logger)
    | ScheduleContextPurge
    | HandleRequest(context: ContextHandle, request: FunctionRequest)

  /** The calls one invocation makes, in order, and what it returns. */
  datatype Execution<R> = Execution(events: seq<Event>, result: Result<R, CallError>)

  /**
   * `executeFunction`: `stringify` is `JSON.stringify`, `acquired` what the
   * context cache settles to and `handled` what the context's handler settles to.
   */
  function Execute<R>(server: NoodlServer, version: FunctionDeploy.CFVersion, logger: Logger,
                      headers: map<string, string>, functionId: string, body: string,
                      stringify: string -> string,
                      acquired: Result<ContextHandle, CallError>, handled: Result<R, CallError>): (x: Execution<R>)
    // the first call, and the only acquisition, asks for the full key and the logger
    ensures |x.events| >= 1 && x.events[0] == AcquireContext(ContextKeyFor(server, version), logger)
    // a failed acquisition ends the invocation with that failure; nothing else is called
    ensures acquired.Failure? ==> x.events == x.events[..1] && x.result == Failure(acquired.error)
    // otherwise: one purge schedule, then one request to the acquired context, whose answer is returned as it is
    ensures acquired.Success? ==>
              |x.events| == 3 && x.events[1] == ScheduleContextPurge &&
              x.events[2] == HandleRequest(acquired.value, FunctionRequest(functionId, headers, stringify(body))) &&
              x.result == handled
  {
    var acquire := AcquireContext(ContextKeyFor(server, version), logger);
    match acquired
    case Failure(e) => Execution([acquire], Failure(e))
    case Success(context) =>
      Execution([acquire, ScheduleContextPurge, HandleRequest(context, FunctionRequest(functionId, headers, stringify(body)))],
                handled)
  }

  /** Each kind of call happens at most once per invocation, and they happen in the order acquire, purge, handle. */
  lemma CallsInOrder<R>(server: NoodlServer, version: FunctionDeploy.CFVersion, logger: Logger,
                        headers: map<string, string>, functionId: string, body: string,
                        stringify: string -> string,
                        acquired: Result<ContextHandle, CallError>, handled: Result<R, CallError>)
    ensures var events := Execute(server, version, logger, headers, functionId, body, stringify, acquired, handled).events;
            forall i, j :: 0 <= i < j < |events| ==> Rank(events[i]) < Rank(events[j])
  {
  }

  /** Position of each kind of call in an invocation. */
  function Rank(e: Event): nat {
    match e
    case AcquireContext(_, _) => 0
    case ScheduleContextPurge => 1
    case HandleRequest(_, _) => 2
  }

  /** The context cache and the context's request handler, as seen by the calls made to them. */
  class Collaborators {
    var trace: seq<Event>

    constructor ()
      ensures trace == []
    {
      trace := [];
    }

    /** `getCachedContext`: the request is recorded; the cache settles to `outcome`. */
    method GetCachedContext(key: ContextKey, logger: Logger, outcome: Result<ContextHandle, CallError>)
      returns (r: Result<ContextHandle, CallError>)
      modifies this
      ensures trace == old(trace) + [AcquireContext(key, logger)] && r == outcome
    {
      trace := trace + [AcquireContext(key, logger)];
      r := outcome;
    }

    /** `scheduleContextCachePurge`: fired and not awaited, so it yields nothing to the caller. */
    method ScheduleContextCachePurge()
      modifies this
      ensures trace == old(trace) + [ScheduleContextPurge]
    {
      trace := trace + [ScheduleContextPurge];
    }

    /** `cachedContext.handleRequest`: the request is recorded; the handler settles to `outcome`. */
    method HandleRequest<R>(context: ContextHandle, request: FunctionRequest, outcome: Result<R, CallError>)
      returns (r: Result<R, CallError>)
      modifies this
      ensures trace == old(trace) + [Event.HandleRequest(context, request)] && r == outcome
    {
      trace := trace + [Event.HandleRequest(context, request)];
      r := outcome;
    }
  }

  /** `executeFunction`, making its calls on `env`. */
  method ExecuteFunction<R>(env: Collaborators, server: NoodlServer, version: FunctionDeploy.CFVersion, logger: Logger,
                            headers: map<string, string>, functionId: string, body: string,
                            stringify: string -> string,
                            acquired: Result<ContextHandle, CallError>, handled: Result<R, CallError>)
    returns (r: Result<R, CallError>)
    modifies env
    ensures var x := Execute(server, version, logger, headers, functionId, body, stringify, acquired, handled);
            env.trace == old(env.trace) + x.events && r == x.result
  {
    var timeOut := OrElse(server.functionOptions.timeOut, DefaultTimeOut);
    var memoryLimit := OrElse(server.functionOptions.memoryLimit, DefaultMemoryLimit);
    var key := ContextKey(server.options.serverURL, server.options.appId, server.options.masterKey,
                          version, timeOut * 1000, memoryLimit);
    var cachedContext := env.GetCachedContext(key, logger, acquired);
    if cachedContext.Failure? {
      return Failure(cachedContext.error);
    }
    env.ScheduleContextCachePurge();
    var response := env.HandleRequest(cachedContext.value, FunctionRequest(functionId, headers, stringify(body)), handled);
    return response;
  }
}
