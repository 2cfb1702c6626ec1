/**
 * The JSON inspector: three inspection steps against the design API, each
 * guarded by its own precondition, run one after the other once a token is
 * configured. Responses are inputs; what the model produces is the list of
 * requests issued and files saved.
 */
module JsonInspector {
  import opened Wrappers
  import opened Strings
  import opened Settings
  import opened NodeIds
  import opened FileKey
  import opened Http

  // ---------------------------------------------------------------- preview

  const PreviewLength: nat := 500
  const Ellipsis: string := "..."

  /** `jsonString.substring(0, 500) + '...'`. */
  function Preview(json: string): (r: string)
    ensures |r| == Min(PreviewLength, |json|) + |Ellipsis| && |r| <= PreviewLength + |Ellipsis|
    ensures r[..|r| - |Ellipsis|] <= json && r[|r| - |Ellipsis|..] == Ellipsis
    ensures |json| <= PreviewLength ==> r == json + Ellipsis
  {
    (if |json| <= PreviewLength then json else json[..PreviewLength]) + Ellipsis
  }

  // ------------------------------------------------------- structure analysis

  const UserEndpoint: string := "/v1/me"
  const FilesPath: string := "/v1/files/"

  /** What `analyzeStructure` prints beyond the top-level property names. */
  datatype Analysis =
    | NotAnObject   // the data is not a non-null object: nothing is analysed
    | KeysOnly      // only the top-level property names
    | UserFields    // the property names and the user fields present
    | FileFields    // the property names and the file fields present

  /** `analyzeStructure`: the user endpoint exactly, or any endpoint under `/v1/files/`. */
  function AnalyzeStructure(isObject: bool, endpoint: string): (a: Analysis)
    ensures a == NotAnObject <==> !isObject
    ensures a == UserFields <==> isObject && endpoint == UserEndpoint
    ensures a == FileFields <==>
      isObject && endpoint != UserEndpoint && exists p: nat :: HasAt(endpoint, p, FilesPath)
  {
    if !isObject then NotAnObject
    else if endpoint == UserEndpoint then UserFields
    else if Includes(endpoint, FilesPath) then FileFields
    else KeysOnly
  }

  function FileEndpoint(key: string): string { FilesPath + key }

  function NodesEndpoint(key: string): string { FileEndpoint(key) + "/nodes" }

  /** The endpoints the three steps pass select the analysis meant for them. */
  lemma StepEndpointsDispatch(key: string)
    ensures AnalyzeStructure(true, UserEndpoint) == UserFields
    ensures AnalyzeStructure(true, FileEndpoint(key)) == FileFields
    ensures AnalyzeStructure(true, NodesEndpoint(key)) == FileFields
  {
  }

  // ------------------------------------------------------------- the steps

  /** What a step does to the outside world. */
  datatype Effect =
    | Request(url: string)      // a GET with the token header
    | SaveJson(fileName: string) // the full body written under the output directory

  /**
   * A fetch as the step sees it: the transport fails (the call throws), or a
   * status arrives with a body that is or is not JSON (`None`).
   */
  datatype Fetched<T> = NetworkError | Responded(status: int, body: Option<T>)

  /**
   * `response.ok` followed by a `response.json()` that does not throw. A 2xx
   * with a null body status (204, 205) has no body, and `json()` rejects on it
   * whatever body the input carries.
   */
  predicate Succeeded<T>(r: Fetched<T>)
  {
    r.Responded? && 200 <= r.status <= 299 && !NullBodyStatus(r.status) && r.body.Some?
  }

  /** The key the two file steps derive from a set, non-empty project URL. */
  function ProjectKey(projectUrl: Option<string>): (r: Option<string>)
    ensures r.Some? ==> Truthy(projectUrl) && r == ExtractFileKey(projectUrl.value)
    ensures r.None? ==> !Truthy(projectUrl) || ExtractFileKey(projectUrl.value).None?
  {
    if Truthy(projectUrl) then ExtractFileKey(projectUrl.value) else None
  }

  function FileUrl(baseUrl: string, key: string): string { baseUrl + FileEndpoint(key) }

  function SavedFileName(key: string): string { "figma-file-" + key + ".json" }

  function NodesUrl(baseUrl: string, key: string, ids: seq<string>): string
  {
    baseUrl + NodesEndpoint(key) + "?ids=" + Join(ids, ",")
  }

  /** The node ids travel comma-separated, in the order they were collected. */
  lemma NodesUrlSample(baseUrl: string, key: string)
    ensures NodesUrl(baseUrl, key, ["0:1", "1:1", "1:2"])
      == baseUrl + "/v1/files/" + key + "/nodes?ids=0:1,1:1,1:2"
  {
  }

  const NodeSampleLimit: int := 3

  /** `inspectFileEndpoint`: fetch the file named by the project URL and save it. */
  function FileStep(c: Credentials, projectUrl: Option<string>, response: Fetched<FileData>): (effects: seq<Effect>)
    ensures ProjectKey(projectUrl).None? ==> effects == []
    ensures ProjectKey(projectUrl).Some? ==>
      var key := ProjectKey(projectUrl).value;
      && |effects| == (if Succeeded(response) then 2 else 1)
      && effects[0] == Request(FileUrl(c.baseUrl, key))
      && (SaveJson(SavedFileName(key)) in effects <==> Succeeded(response))
      && (forall e :: e in effects && e.Request? ==> e == effects[0])
      && (forall e :: e in effects && e.SaveJson? ==> e == SaveJson(SavedFileName(key)))
  {
    match ProjectKey(projectUrl)
    case None => []
    case Some(key) =>
      [Request(FileUrl(c.baseUrl, key))] + (if Succeeded(response) then [SaveJson(SavedFileName(key))] else [])
  }

  /** The ids the nodes step samples from a parsed file. */
  function SampleIds(file: FileData): seq<string>
  {
    if file.document.Some? then Cap(Preorder(file.document.value), NodeSampleLimit) else []
  }

  /** What `inspectNodesEndpoint` does, stated on values. */
  function NodesEffects(c: Credentials, projectUrl: Option<string>, response: Fetched<FileData>): seq<Effect>
  {
    match ProjectKey(projectUrl)
    case None => []
    case Some(key) =>
      [Request(FileUrl(c.baseUrl, key))]
        + (if Succeeded(response) && |SampleIds(response.body.value)| > 0
           then [Request(NodesUrl(c.baseUrl, key, SampleIds(response.body.value)))]
           else [])
  }

  /** `inspectNodesEndpoint`: re-fetch the file, then ask for up to three of its nodes. */
  method NodesStep(c: Credentials, projectUrl: Option<string>, response: Fetched<FileData>)
    returns (effects: seq<Effect>)
    ensures effects == NodesEffects(c, projectUrl, response)
  {
    var key := ProjectKey(projectUrl);
    if key.None? {
      return [];
    }
    effects := [Request(FileUrl(c.baseUrl, key.value))];
    if Succeeded(response) {
      var ids := ExtractNodeIds(response.body.value, NodeSampleLimit);
      if |ids| > 0 {
        effects := effects + [Request(NodesUrl(c.baseUrl, key.value, ids))];
      }
    }
  }

  /**
   * The nodes step issues no request without a key, one without a parsed file
   * or without ids, and otherwise a second one naming the first ids of the
   * document in pre-order, at most three of them.
   */
  lemma NodesStepRequests(c: Credentials, projectUrl: Option<string>, response: Fetched<FileData>)
    ensures var effects := NodesEffects(c, projectUrl, response);
      && (ProjectKey(projectUrl).None? ==> effects == [])
      && (ProjectKey(projectUrl).Some? ==>
            var key := ProjectKey(projectUrl).value;
            && effects[0] == Request(FileUrl(c.baseUrl, key))
            && (|effects| == 2 <==>
                  Succeeded(response) && response.body.value.document.Some?
                  && |Preorder(response.body.value.document.value)| > 0)
            && (|effects| == 2 ==>
                  var ids := SampleIds(response.body.value);
                  && effects[1] == Request(NodesUrl(c.baseUrl, key, ids))
                  && 0 < |ids| <= 3
                  && ids <= Preorder(response.body.value.document.value))
            && |effects| <= 2)
      && forall e :: e in effects ==> e.Request?
  {
  }

  /**
   * `runAllInspections`: nothing at all without a token; otherwise the user
   * endpoint, then the file step, then the nodes step.
   */
  method RunAllInspections(env: Environment, fileResponse: Fetched<FileData>, nodesFileResponse: Fetched<FileData>)
    returns (effects: seq<Effect>)
    ensures Resolve(env).token == "" ==> effects == []
    ensures Resolve(env).token != "" ==>
      effects == [Request(Resolve(env).baseUrl + UserEndpoint)]
                 + FileStep(Resolve(env), env.projectUrl, fileResponse)
                 + NodesEffects(Resolve(env), env.projectUrl, nodesFileResponse)
  {
    var c := Resolve(env);
    if c.token == "" {
      return [];
    }
    effects := [Request(c.baseUrl + UserEndpoint)];
    effects := effects + FileStep(c, env.projectUrl, fileResponse);
    var nodes := NodesStep(c, env.projectUrl, nodesFileResponse);
    effects := effects + nodes;
  }
}
