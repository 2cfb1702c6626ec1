/**
 * The configuration both tools read from the process environment once, at
 * construction. The environment is passed in as a record.
 */
module Settings {
  import opened Wrappers

  /** The four environment variables; `None` is an unset variable. */
  datatype Environment = Environment(
    token: Option<string>,
    baseUrl: Option<string>,
    projectUrl: Option<string>,
    frontendUrl: Option<string>)

  /** JavaScript truthiness of a possibly-unset string. */
  predicate Truthy(v: Option<string>)
  {
    v.Some? && v.value != ""
  }

  const DefaultBaseUrl: string := "https://api.figma.com"

  /** The two read-only fields both tool classes set in their constructors. */
  datatype Credentials = Credentials(token: string, baseUrl: string)

  /** `process.env.TOKEN || ''` and `process.env.BASE_URL || DefaultBaseUrl`. */
  function Resolve(env: Environment): (c: Credentials)
    ensures c.baseUrl != ""
    ensures Truthy(env.baseUrl) ==> c.baseUrl == env.baseUrl.value
    ensures !Truthy(env.baseUrl) ==> c.baseUrl == DefaultBaseUrl
    ensures c.token != "" <==> Truthy(env.token)
    ensures Truthy(env.token) ==> c.token == env.token.value
  {
    Credentials(
      if Truthy(env.token) then env.token.value else "",
      if Truthy(env.baseUrl) then env.baseUrl.value else DefaultBaseUrl)
  }
}
