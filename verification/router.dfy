/**
 * `DaydreamsRouterClient` (providers/daydreams.py): the base URL it settles on,
 * how it turns a path into a URL, the two-candidate job submission with its 404
 * fall-through, and the unwrapping of job responses. The HTTP session is an
 * oracle: a function from a request to the response the router gives it.
 */
module Router {
  import opened Wrappers
  import opened Text

  const DefaultBaseUrl: string := "https://api-beta.daydreams.systems/v1"
  const JobsPath: string := "/videos/jobs"
  const MissingKeyMessage: string := "DAYDREAMS_API_KEY is required for Daydreams Router provider"

  /** A decoded JSON document. */
  datatype Json =
    | JNull
    | JBool(b: bool)
    | JNum(n: int)
    | JStr(s: string)
    | JArr(items: seq<Json>)
    | JObj(fields: map<string, Json>)

  type Body = map<string, Json>

  datatype Request = Request(url: string, body: Body)

  /** An HTTP response: its status code and its decoded JSON body. */
  datatype Response = Response(status: int, body: Json)

  /** `resp.raise_for_status()` then `resp.json()`: 4xx and 5xx raise, anything else yields the body. */
  function Checked(resp: Response): Result<Json> {
    if 400 <= resp.status < 600 then Err(HTTPError(resp.status)) else Ok(resp.body)
  }

  /**
   * `(base_url or DAYDREAMS_BASE_URL or default).rstrip("/")`. An absent argument
   * and an unset variable are both the empty string.
   */
  function ChooseBaseUrl(explicit: string, env: string): (r: string)
    ensures r == [] || r[|r| - 1] != '/'
    ensures var chosen := if explicit != [] then explicit else if env != [] then env else DefaultBaseUrl;
      |r| <= |chosen| && r == chosen[..|r|] && forall i :: |r| <= i < |chosen| ==> chosen[i] == '/'
  {
    var chosen := if explicit != [] then explicit else if env != [] then env else DefaultBaseUrl;
    RStripCharRemovesTrailing(chosen, '/');
    RStripChar(chosen, '/')
  }

  /** The fields `__init__` keeps; the session and its headers are not modelled. */
  datatype RouterClient = RouterClient(apiKey: string, baseUrl: string, timeout: int)
  {
    /** What `__init__` establishes. */
    predicate Valid() {
      apiKey != [] && (baseUrl == [] || baseUrl[|baseUrl| - 1] != '/')
    }

    /**
     * `_url`: absolute URLs pass through; a relative path follows the base URL,
     * with a `/` added between them when the path has no leading `/`.
     */
    function Url(path: string): (r: string)
      ensures StartsWith(path, "http://") || StartsWith(path, "https://") ==> r == path
      ensures !StartsWith(path, "http://") && !StartsWith(path, "https://") ==>
        && |r| > |baseUrl| && r[..|baseUrl|] == baseUrl && r[|baseUrl|] == '/'
        && EndsWith(r, path)
        && |r| == |baseUrl| + |path| + (if StartsWith(path, "/") then 0 else 1)
    {
      if StartsWith(path, "http://") || StartsWith(path, "https://") then path
      else
        StartsWithIsPrefix(path, "/");
        baseUrl + (if StartsWith(path, "/") then path else "/" + path)
    }
  }

  /** `DaydreamsRouterClient(api_key=..., base_url=..., timeout=...)`. */
  function NewClient(apiKey: string, baseUrl: string, envBaseUrl: string, timeout: int): (r: Result<RouterClient>)
    ensures r.Err? <==> apiKey == []
    ensures r.Err? ==> r.error == ValueError(MissingKeyMessage)
    ensures r.Ok? ==> r.value.Valid() && r.value.apiKey == apiKey && r.value.timeout == timeout
    ensures r.Ok? ==> r.value.baseUrl == ChooseBaseUrl(baseUrl, envBaseUrl)
  {
    if apiKey == [] then Err(ValueError(MissingKeyMessage))
    else Ok(RouterClient(apiKey, ChooseBaseUrl(baseUrl, envBaseUrl), timeout))
  }

  /** `slug or (model.split("/")[-1] if model else None)`, with "" for None. */
  function CandidateSlug(model: string, slug: string): string {
    if slug != [] then slug else if model != [] then LastSegment(model) else []
  }

  /** The paths `submit_video_job` tries, in order. */
  function JobPaths(model: string, slug: string): (paths: seq<string>)
    ensures 1 <= |paths| <= 2 && paths[|paths| - 1] == JobsPath
    ensures |paths| == 2 <==> CandidateSlug(model, slug) != []
    ensures |paths| == 2 ==> paths[0] == "/videos/" + CandidateSlug(model, slug) + "/jobs" && paths[0] != JobsPath
  {
    var c := CandidateSlug(model, slug);
    (if c != [] then ["/videos/" + c + "/jobs"] else []) + [JobsPath]
  }

  /** `{"model": model}` updated with the payload: a payload entry wins. */
  function BaseBody(model: string, payload: Body): Body {
    map["model" := JStr(model)] + payload
  }

  /** The body posted to one path: `model` is dropped except on the generic jobs path. */
  function BodyFor(path: string, base: Body): (body: Body)
    ensures "model" in body <==> path == JobsPath && "model" in base
    ensures forall k :: k in base && k != "model" ==> k in body && body[k] == base[k]
    ensures body.Keys <= base.Keys
  {
    if path != JobsPath then base - {"model"} else base
  }

  /** The payload's entries reach every request, and the model name is sent only on the generic path. */
  lemma BodyCarriesPayload(model: string, payload: Body, path: string)
    ensures var body := BodyFor(path, BaseBody(model, payload));
      && (forall k :: k in payload && k != "model" ==> k in body && body[k] == payload[k])
      && ("model" in body <==> path == JobsPath)
      && (path == JobsPath ==> body["model"] == if "model" in payload then payload["model"] else JStr(model))
  {
  }

  /**
   * `submit_video_job`. `sent` lists the POSTs made, in order; `post` is the
   * router's answer to each. Every request before the last one got a 404, the
   * result is the last answer checked for errors, and a 404 ends the attempts
   * only on the final path.
   */
  method SubmitVideoJob(client: RouterClient, model: string, payload: Body, slug: string, post: Request -> Response)
    returns (r: Result<Json>, sent: seq<Request>)
    ensures var paths := JobPaths(model, slug);
      && 1 <= |sent| <= |paths|
      && (forall i :: 0 <= i < |sent| ==>
            sent[i] == Request(client.Url(paths[i]), BodyFor(paths[i], BaseBody(model, payload))))
      && (forall i :: 0 <= i < |sent| - 1 ==> post(sent[i]).status == 404)
      && (|sent| < |paths| ==> post(sent[|sent| - 1]).status != 404)
      && r == Checked(post(sent[|sent| - 1]))
  {
    var paths := JobPaths(model, slug);
    var base := BaseBody(model, payload);
    sent := [];
    var i := 0;
    while i < |paths|
      invariant 0 <= i < |paths| && |sent| == i
      invariant forall j :: 0 <= j < i ==>
        sent[j] == Request(client.Url(paths[j]), BodyFor(paths[j], base)) && post(sent[j]).status == 404
    {
      var path := paths[i];
      var body := base;
      if path != JobsPath {
        body := body - {"model"};
      }
      var request := Request(client.Url(path), body);
      var resp := post(request);
      sent := sent + [request];
      if resp.status == 404 && path != paths[|paths| - 1] {
        i := i + 1;
        continue;
      }
      r := Checked(resp);
      return;
    }
    // Every path but the last either returns or continues, and the last always returns.
    assert false;
  }

  /** `data.get("job", data)`: the `job` member of an object if it has one, else the object itself. */
  function Unwrap(data: Json): (r: Result<Json>)
    ensures r.Err? <==> !data.JObj?
    ensures r.Err? ==> r.error == AttributeError("get")
    ensures data.JObj? && "job" in data.fields ==> r == Ok(data.fields["job"])
    ensures data.JObj? && "job" !in data.fields ==> r == Ok(data)
  {
    match data
    case JObj(fields) => Ok(if "job" in fields then fields["job"] else data)
    case _ => Err(AttributeError("get"))
  }

  /** Wrapping a job in a `job` envelope and unwrapping it gives the job back, whatever else the envelope holds. */
  lemma UnwrapOpensEnvelope(job: Json, others: map<string, Json>)
    ensures Unwrap(JObj(others["job" := job])) == Ok(job)
  {
  }

  /** A job object without a `job` member is its own unwrapping. */
  lemma UnwrapKeepsBareJob(fields: map<string, Json>)
    requires "job" !in fields
    ensures Unwrap(JObj(fields)) == Ok(JObj(fields))
    ensures Unwrap(JObj(fields)).value == Unwrap(Unwrap(JObj(fields)).value).value
  {
  }

  /** `get_video_job`: GET `/videos/jobs/<id>`, raise on 4xx/5xx, unwrap. */
  function GetVideoJob(client: RouterClient, jobId: string, get: string -> Response): (r: Result<Json>)
    ensures var resp := get(client.Url("/videos/jobs/" + jobId));
      && (400 <= resp.status < 600 ==> r == Err(HTTPError(resp.status)))
      && (!(400 <= resp.status < 600) ==> r == Unwrap(resp.body))
  {
    var data :- Checked(get(client.Url("/videos/jobs/" + jobId)));
    Unwrap(data)
  }

  /** `fetch_job_status`: GET the status URL (absolute, or relative to the base), raise on 4xx/5xx, unwrap. */
  function FetchJobStatus(client: RouterClient, statusUrl: string, get: string -> Response): (r: Result<Json>)
    ensures var resp := get(client.Url(statusUrl));
      && (400 <= resp.status < 600 ==> r == Err(HTTPError(resp.status)))
      && (!(400 <= resp.status < 600) ==> r == Unwrap(resp.body))
  {
    var data :- Checked(get(client.Url(statusUrl)));
    Unwrap(data)
  }

  /** The job path is relative, so a job is always fetched from under the client's base URL. */
  lemma JobIsFetchedFromBase(client: RouterClient, jobId: string)
    ensures var u := client.Url("/videos/jobs/" + jobId);
      u == client.baseUrl + "/videos/jobs/" + jobId
  {
    assert !StartsWith("/videos/jobs/" + jobId, "http://");
    assert !StartsWith("/videos/jobs/" + jobId, "https://");
  }
}
