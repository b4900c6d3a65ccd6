/**
 * The tenant gate: the middleware that runs before every tenant route. It
 * checks the `:app` path parameter and the `x-api-key` header in a fixed
 * order, and on success copies the application's encrypted token secrets into
 * the request headers and passes control on exactly once.
 */
module AppCodeMiddleware {
  import opened Common
  import opened Headers
  import Crypto
  import Responses

  /** A stored application: its code, the bcrypt digest of its API key and its encrypted secrets. */
  datatype AppRow = AppRow(code: string, apiKey: string, accessTokenSecret: string, refreshTokenSecret: string)

  /** What the guard chain decides: refuse with a message, or admit the application. */
  datatype GateDecision = Reject(message: string) | Admit(app: AppRow)

  /**
   * The guard chain: application code, then API key present, then not an
   * array, then a known application (codes are unique, so the applications
   * are a map from code), then the key compares against the stored digest.
   */
  function Gate(apps: map<string, AppRow>, prims: Crypto.Primitives,
                appCode: Option<string>, apiKey: Option<HeaderValue>): (d: GateDecision)
    ensures appCode.None? ==> d == Reject("No application selected.")
    ensures appCode.Some? && apiKey.None? ==> d == Reject("No API Key provided.")
    ensures appCode.Some? && apiKey.Some? && apiKey.value.List? ==> d == Reject("API Key received was an array.")
    ensures appCode.Some? && apiKey.Some? && apiKey.value.Single? && appCode.value !in apps ==>
              d == Reject("App code is incorrect.")
    ensures d.Admit? <==>
              && appCode.Some? && apiKey.Some? && apiKey.value.Single? && appCode.value in apps
              && prims.Compare(apiKey.value.text, apps[appCode.value].apiKey)
    ensures d.Admit? ==> d.app == apps[appCode.value]
    ensures d.Reject? && appCode.Some? && apiKey.Some? && apiKey.value.Single? && appCode.value in apps ==>
              d == Reject("API Key is incorrect.")
  {
    if appCode.None? then Reject("No application selected.")
    else if apiKey.None? then Reject("No API Key provided.")
    else if apiKey.value.List? then Reject("API Key received was an array.")
    else if appCode.value !in apps then Reject("App code is incorrect.")
    else
      var app := apps[appCode.value];
      if !prims.Compare(apiKey.value.text, app.apiKey) then Reject("API Key is incorrect.")
      else Admit(app)
  }

  /** A request as the middleware sees it: the path parameter, the mutable headers, and how often `next` ran. */
  class Request {
    const appParam: Option<string>
    var headers: map<string, HeaderValue>
    var nextCalls: nat

    constructor (appParam: Option<string>, headers: map<string, HeaderValue>)
      ensures this.appParam == appParam && this.headers == headers && nextCalls == 0
    {
      this.appParam := appParam;
      this.headers := headers;
      nextCalls := 0;
    }

    function ApiKey(): Option<HeaderValue>
      reads this
    {
      if ApiKeyHeader in headers then Some(headers[ApiKeyHeader]) else None
    }

    /** `next()`: hands the request to the route handler. */
    method Next()
      modifies this
      ensures headers == old(headers) && nextCalls == old(nextCalls) + 1
    {
      nextCalls := nextCalls + 1;
    }
  }

  /**
   * `appCodeMiddleware`: on any failure it answers `Failed` with the gate's
   * message, writes no header and never calls `next`; on success it sets the
   * two secret headers to the application's stored ciphertexts and calls `next`
   * once, so the controllers see this application's secrets and the presented key.
   */
  method AppCodeGate(req: Request, apps: map<string, AppRow>, prims: Crypto.Primitives)
    returns (refusal: Option<Responses.Outcome>)
    modifies req
    ensures match Gate(apps, prims, req.appParam, old(req.ApiKey()))
      case Reject(message) =>
        refusal == Some(Responses.Failed(message)) && req.headers == old(req.headers) && req.nextCalls == old(req.nextCalls)
      case Admit(app) =>
        && refusal.None?
        && req.headers == old(req.headers)[AccessSecretHeader := Single(app.accessTokenSecret)]
                                          [RefreshSecretHeader := Single(app.refreshTokenSecret)]
        && req.nextCalls == old(req.nextCalls) + 1
        && TenantHeadersOf(req.headers) ==
             Some(TenantHeaders(old(req.ApiKey()).value.text, Some(app.accessTokenSecret), Some(app.refreshTokenSecret)))
  {
    var decision := Gate(apps, prims, req.appParam, req.ApiKey());
    if decision.Reject? {
      return Some(Responses.Failed(decision.message));
    }
    req.headers := req.headers[AccessSecretHeader := Single(decision.app.accessTokenSecret)];
    req.headers := req.headers[RefreshSecretHeader := Single(decision.app.refreshTokenSecret)];
    req.Next();
    refusal := None;
  }
}
