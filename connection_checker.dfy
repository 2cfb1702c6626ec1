/**
 * The connection checker: validate the configuration, issue one request to
 * the user endpoint, classify the outcome and suggest remedies.
 */
module ConnectionChecker {
  import opened Wrappers
  import opened Settings
  import opened Http

  // ------------------------------------------------------------ validation

  /** One row of the configuration check list. */
  datatype Check = Check(name: string, value: Option<string>, required: bool)

  /** The line `validateEnvironment` reports for a check. */
  datatype CheckStatus = MissingRequired | Configured | MissingOptional

  /** The fixed check list: two required values, then two optional ones. */
  function Checks(c: Credentials, env: Environment): seq<Check>
  {
    [ Check("BASE_URL", Some(c.baseUrl), true),
      Check("TOKEN", Some(c.token), true),
      Check("PROJECT_URL", env.projectUrl, false),
      Check("FRONTEND_URL", env.frontendUrl, false) ]
  }

  /** Each check falls into exactly one of the three classes. */
  function Status(check: Check): (s: CheckStatus)
    ensures s == MissingRequired <==> check.required && !Truthy(check.value)
    ensures s == Configured <==> Truthy(check.value)
    ensures s == MissingOptional <==> !check.required && !Truthy(check.value)
  {
    if check.required && !Truthy(check.value) then MissingRequired
    else if Truthy(check.value) then Configured
    else MissingOptional
  }

  /** Every required check has a value. */
  predicate RequiredPresent(checks: seq<Check>)
  {
    forall i :: 0 <= i < |checks| && checks[i].required ==> Truthy(checks[i].value)
  }

  /**
   * `validateEnvironment`: one status per check, in order, and `allValid`
   * cleared exactly when some required check has no value.
   */
  method ValidateEnvironment(c: Credentials, env: Environment) returns (allValid: bool, report: seq<CheckStatus>)
    ensures allValid <==> RequiredPresent(Checks(c, env))
    ensures |report| == |Checks(c, env)|
    ensures forall i :: 0 <= i < |report| ==> report[i] == Status(Checks(c, env)[i])
  {
    var checks := Checks(c, env);
    allValid := true;
    report := [];
    for i := 0 to |checks|
      invariant |report| == i
      invariant forall j :: 0 <= j < i ==> report[j] == Status(checks[j])
      invariant allValid <==> forall j :: 0 <= j < i && checks[j].required ==> Truthy(checks[j].value)
    {
      var status := Status(checks[i]);
      if status == MissingRequired {
        allValid := false;
      }
      report := report + [status];
    }
  }

  /**
   * The base URL always has a value, so validation fails exactly when the
   * token is unset or empty; the optional values never change the outcome.
   */
  lemma ValidationNeedsOnlyToken(env: Environment, projectUrl: Option<string>, frontendUrl: Option<string>)
    ensures RequiredPresent(Checks(Resolve(env), env)) <==> Truthy(env.token)
    ensures var env' := env.(projectUrl := projectUrl, frontendUrl := frontendUrl);
      RequiredPresent(Checks(Resolve(env'), env')) == RequiredPresent(Checks(Resolve(env), env))
  {
    var checks := Checks(Resolve(env), env);
    if !Truthy(env.token) {
      assert checks[1].required && !Truthy(checks[1].value);
    }
    var env' := env.(projectUrl := projectUrl, frontendUrl := frontendUrl);
    var checks' := Checks(Resolve(env'), env');
    if !Truthy(env'.token) {
      assert checks'[1].required && !Truthy(checks'[1].value);
    }
  }

  // ------------------------------------------------------------- remedies

  /** `suggestSolutions`: the hints printed for a non-200 status. */
  function SuggestSolutions(status: int): (hints: seq<string>)
    ensures |hints| == if status == 401 then 3 else 2
  {
    match status
    case 401 => [
      "Verificar que el token de Figma sea válido",
      "Comprobar que el token no haya expirado",
      "Regenerar el token en la configuración de Figma"]
    case 403 => [
      "Verificar permisos del token",
      "Comprobar que el token tenga acceso al recurso"]
    case 404 => [
      "Verificar que la URL base sea correcta",
      "Comprobar el endpoint de la API"]
    case 429 => [
      "Límite de rate limiting alcanzado",
      "Esperar antes de hacer otra petición"]
    case 500 => ServerHints
    case 502 => ServerHints
    case 503 => ServerHints
    case _ => DefaultHints
  }

  const ServerHints: seq<string> := ["Error del servidor de Figma", "Intentar más tarde"]
  const DefaultHints: seq<string> := [
    "Revisar documentación de la API de Figma",
    "Verificar configuración del token"]

  /** The hints printed when no response arrives at all. */
  const NetworkHints: seq<string> := [
    "Verificar conexión a internet",
    "Comprobar que la URL base sea correcta",
    "Verificar configuración de proxy/firewall"]

  /**
   * The mapping is total: the three server errors share their hints, every
   * code without a case of its own gets the default hints, and the five
   * named groups are told apart.
   */
  lemma SuggestSolutionsTable(status: int)
    ensures status in {500, 502, 503} ==> SuggestSolutions(status) == ServerHints
    ensures status !in {401, 403, 404, 429, 500, 502, 503} ==> SuggestSolutions(status) == DefaultHints
    ensures status in {401, 403, 404, 429} ==>
      SuggestSolutions(status) != ServerHints && SuggestSolutions(status) != DefaultHints
    ensures status in {401, 403, 404, 429} && status != 401 ==> SuggestSolutions(status) != SuggestSolutions(401)
    ensures status in {403, 404, 429} && status != 403 ==> SuggestSolutions(status) != SuggestSolutions(403)
    ensures status in {404, 429} && status != 404 ==> SuggestSolutions(status) != SuggestSolutions(404)
  {
  }


  // ------------------------------------------------------- classification

  datatype User = User(id: string, email: string, handle: string, imgUrl: string)

  /**
   * What `response.json()` makes of a body it has read. Every JSON value but
   * `null` lands in `JsonValue`: an object carries the `user` and `error`
   * fields it has, while an array, a number, a string or a boolean reads both
   * fields as absent, since reading a field of such a value yields `undefined`.
   * The message prints `error` through a template literal, so a truthy `error`
   * that is not a string is given already converted to its text, and a falsy
   * one (`0`, `false`, `""`) as `None`.
   */
  datatype ParsedBody =
    | NotJson                                       // `json()` rejects
    | JsonNull                                      // parses to `null`: reading a field throws
    | JsonValue(user: Option<User>, error: Option<string>)

  /** The outcome of the single request, given as an input. */
  datatype Probe =
    | TransportFailure                                 // `fetch` throws: DNS, refused, timeout
    | Received(status: int, text: string, json: ParsedBody)

  // Whatever `text` and `json` a probe holds, a response with a null body
  // status reads as the empty text, which does not parse as JSON.
  function BodyText(probe: Probe): string
    requires probe.Received?
  {
    if NullBodyStatus(probe.status) then "" else probe.text
  }

  function BodyJson(probe: Probe): ParsedBody
    requires probe.Received?
  {
    if NullBodyStatus(probe.status) then NotJson else probe.json
  }

  /** The report `checkConnection` prints, as a value. */
  datatype ProbeReport =
    | ConfigIncomplete                                    // validation failed; nothing was sent
    | Connected(user: Option<User>)
    | Rejected(status: int, message: string, hints: seq<string>)
    | Unreachable(hints: seq<string>)

  const UnknownError: string := "Error desconocido"

  /**
   * The error message of a non-200 response, reading the body once: the
   * JSON `error` field when the body is a JSON value other than `null`,
   * otherwise the raw text, and the fixed fallback when the chosen value is empty.
   */
  function ErrorMessage(text: string, json: ParsedBody): (m: string)
    ensures m != ""
    ensures json.JsonValue? && Truthy(json.error) ==> m == json.error.value
    ensures json.JsonValue? && !Truthy(json.error) ==> m == UnknownError
    ensures !json.JsonValue? && text != "" ==> m == text
    ensures !json.JsonValue? && text == "" ==> m == UnknownError
  {
    if json.JsonValue? then
      if Truthy(json.error) then json.error.value else UnknownError
    else if text != "" then text else UnknownError
  }

  /** The classification `checkConnection` makes once the request was sent. */
  function ClassifyResponse(probe: Probe): (r: ProbeReport)
    ensures r.Connected? <==> probe.Received? && probe.status == 200 && probe.json.JsonValue?
    ensures r.Connected? ==> r.user == probe.json.user
    ensures r.Rejected? <==> probe.Received? && probe.status != 200
    ensures r.Rejected? ==>
      r.status == probe.status && r.hints == SuggestSolutions(probe.status)
      && r.message == ErrorMessage(BodyText(probe), BodyJson(probe))
    ensures r.Rejected? && NullBodyStatus(probe.status) ==> r.message == UnknownError
    ensures r.Unreachable? ==> r.hints == NetworkHints
    ensures r != ConfigIncomplete
  {
    match probe
    case TransportFailure => Unreachable(NetworkHints)
    case Received(status, _, json) =>
      if status == 200 then
        if json.JsonValue? then Connected(json.user)
        // `json()` rejects, or reading `data.user` of `null` throws, into the outer handler
        else Unreachable(NetworkHints)
      else Rejected(status, ErrorMessage(BodyText(probe), BodyJson(probe)), SuggestSolutions(status))
  }

  /**
   * `checkConnection`: no request unless validation passes; then one GET of
   * the user endpoint, connected exactly when the classification says so.
   */
  method CheckConnection(env: Environment, probe: Probe) returns (connected: bool, report: ProbeReport, requests: seq<string>)
    ensures !RequiredPresent(Checks(Resolve(env), env)) ==>
      !connected && report == ConfigIncomplete && requests == []
    ensures RequiredPresent(Checks(Resolve(env), env)) ==>
      requests == [Resolve(env).baseUrl + "/v1/me"] && report == ClassifyResponse(probe)
    ensures connected <==> report.Connected?
  {
    var c := Resolve(env);
    var valid, _ := ValidateEnvironment(c, env);
    if !valid {
      return false, ConfigIncomplete, [];
    }
    requests := [c.baseUrl + "/v1/me"];
    report := ClassifyResponse(probe);
    connected := report.Connected?;
  }

  /**
   * The checker reports a connection only for status 200 with a body that
   * parses to a JSON value other than `null`: another success code such as
   * 201 or 204 counts as a failure, and without a token nothing is sent.
   */
  lemma ConnectedOnlyOn200(env: Environment, probe: Probe)
    ensures (ClassifyResponse(probe).Connected? && RequiredPresent(Checks(Resolve(env), env))) <==>
      (Truthy(env.token) && probe.Received? && probe.status == 200 && probe.json.JsonValue?)
    ensures probe.Received? && 200 < probe.status <= 299 ==> ClassifyResponse(probe).Rejected?
  {
    ValidationNeedsOnlyToken(env, env.projectUrl, env.frontendUrl);
  }

  // ----------------------------------------------- the code as it is written

  /** Whether the response body stream has been read. */
  datatype BodyState = Unread | Consumed

  /** An awaited call either returns a value or throws. */
  datatype Outcome<T> = Returned(value: T) | Threw

  datatype JsonRead = JsonRead(parsed: Outcome<ParsedBody>, state: BodyState)

  /**
   * `await response.json()`: a body that is present is read to the end even
   * when it then fails to parse; an absent body parses as the empty text and
   * fails without anything having been read.
   */
  function JsonCall(probe: Probe): JsonRead
    requires probe.Received?
  {
    if NullBodyStatus(probe.status) then JsonRead(Threw, Unread)
    else if probe.json.NotJson? then JsonRead(Threw, Consumed)
    else JsonRead(Returned(probe.json), Consumed)
  }

  /** `errorData.error || 'Error desconocido'`: reading a field of `null` throws. */
  function ErrorFieldCall(json: ParsedBody): Outcome<string>
  {
    match json
    case JsonValue(_, error) => Returned(if Truthy(error) then error.value else UnknownError)
    case _ => Threw
  }

  /** `await response.text()`: rejects once the body has been read. */
  function TextCall(probe: Probe, state: BodyState): Outcome<string>
    requires probe.Received?
  {
    if state == Consumed then Threw else Returned(BodyText(probe))
  }

  /**
   * The non-200 branch as written: try `json()` and the `error` field; when
   * either throws, fall back to `text()`. What still throws escapes the branch.
   */
  function ErrorBranchAsWritten(probe: Probe): Outcome<string>
    requires probe.Received?
  {
    var read := JsonCall(probe);
    var fromJson := if read.parsed.Returned? then ErrorFieldCall(read.parsed.value) else Threw;
    if fromJson.Returned? then fromJson
    else
      match TextCall(probe, read.state)
      case Returned(t) => Returned(if t != "" then t else UnknownError)
      case Threw => Threw
  }

  /**
   * The classification as the code is written, step by step; anything that
   * throws lands in the outer handler, which reports a connection failure.
   */
  function ClassifyResponseAsWritten(probe: Probe): (r: ProbeReport)
    ensures r != ConfigIncomplete
    ensures r.Rejected? ==> probe.Received? && r.status == probe.status && r.hints == SuggestSolutions(probe.status)
    ensures r.Unreachable? ==> r.hints == NetworkHints
  {
    match probe
    case TransportFailure => Unreachable(NetworkHints)
    case Received(status, _, _) =>
      if status == 200 then
        match JsonCall(probe).parsed
        case Returned(JsonValue(user, _)) => Connected(user)
        case _ => Unreachable(NetworkHints)
      else
        match ErrorBranchAsWritten(probe)
        case Returned(m) => Rejected(status, m, SuggestSolutions(status))
        case Threw => Unreachable(NetworkHints)
  }

  /**
   * The code as written agrees with the corrected classification except on a
   * non-200 response whose body is present but is not a JSON value other than
   * `null`: `json()` or the field read has thrown after the body was read, the
   * fallback `text()` rejects, and the status hints are lost. A response
   * without a body keeps its status and hints, with the fixed fallback message.
   */
  lemma AsWrittenDiffersOnlyOnReadBody(probe: Probe)
    ensures (probe.Received? && probe.status != 200 && !NullBodyStatus(probe.status) && !probe.json.JsonValue?) ==>
      ClassifyResponseAsWritten(probe) == Unreachable(NetworkHints)
    ensures !(probe.Received? && probe.status != 200 && !NullBodyStatus(probe.status) && !probe.json.JsonValue?) ==>
      ClassifyResponseAsWritten(probe) == ClassifyResponse(probe)
    ensures probe.Received? && NullBodyStatus(probe.status) ==>
      ClassifyResponseAsWritten(probe) == Rejected(probe.status, UnknownError, SuggestSolutions(probe.status))
  {
  }

  /** A 404 with a plain-text body loses both its message and its status hints. */
  lemma AsWrittenLosesStatusHints()
    ensures var probe := Received(404, "Not Found", NotJson);
      && ClassifyResponseAsWritten(probe) == Unreachable(NetworkHints)
      && ClassifyResponse(probe) == Rejected(404, "Not Found", SuggestSolutions(404))
  {
  }
}
