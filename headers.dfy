/**
 * Request headers as the tenant gate writes them and the controllers read
 * them: a value is a single string or, for a repeated header, an array.
 */
module Headers {
  import opened Common

  /** A request header: a single string, or the array Node builds for a repeated header. */
  datatype HeaderValue = Single(text: string) | List(items: seq<string>)

  const ApiKeyHeader := "x-api-key"
  const AccessSecretHeader := "access-token-secret"
  const RefreshSecretHeader := "refresh-token-secret"

  /** The headers the controllers read once the gate has admitted a request. */
  datatype TenantHeaders = TenantHeaders(apiKey: string, accessSecret: Option<string>, refreshSecret: Option<string>)

  /** The controllers' view of the headers: the key cast to a string, each secret if it is a single string. */
  function TenantHeadersOf(headers: map<string, HeaderValue>): Option<TenantHeaders> {
    if ApiKeyHeader in headers && headers[ApiKeyHeader].Single? then
      Some(TenantHeaders(headers[ApiKeyHeader].text, SingleText(headers, AccessSecretHeader),
                         SingleText(headers, RefreshSecretHeader)))
    else None
  }

  function SingleText(headers: map<string, HeaderValue>, name: string): Option<string> {
    if name in headers && headers[name].Single? then Some(headers[name].text) else None
  }
}
