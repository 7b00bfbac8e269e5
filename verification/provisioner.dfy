/**
 * The revision-creation workflow of server.js, `createNewBrowserRevision`:
 * derive the tag, the revision name and the two URLs, GET the service
 * definition, append the tagged traffic target and set the template's
 * revision, PATCH the definition back, and answer `{id, url}` or `null`.
 *
 * The network is not modelled: the metadata values (project id, region text,
 * access token) and the outcomes of the two API calls are inputs, and the
 * requests the workflow issues are part of its result.
 */
module Provisioner {
  import opened Wrappers
  import opened Strings
  import opened Region
  import opened Names
  import opened JsonValues
  import opened ServiceDefinitions

  /** What the workflow reads before it talks to the API. */
  datatype Context = Context(
    serviceId: string,      // BROWSER_SERVICE_ID, `browser` by default
    generatedId: string,    // the random identifier
    projectId: string,      // text of the project-id metadata endpoint
    regionText: string,     // text of the region metadata endpoint
    accessToken: string)    // `access_token` of the token metadata endpoint

  /**
   * How an API call ends: the fetch rejects, or a response arrives with its
   * `ok` flag and the outcome of reading its body as JSON (`None` when the
   * body is not JSON and `response.json()` rejects).
   */
  datatype Response = NetworkError | Received(ok: bool, json: Option<Json>)
  {
    predicate Succeeded()
    {
      Received? && ok
    }
  }

  /** A request the workflow sends to the Cloud Run Admin API. */
  datatype Request =
    | Get(url: string, authorization: string)
    | Patch(url: string, authorization: string, body: Json)

  /** The answer on success: `{id, url}`. */
  datatype BrowserRevision = BrowserRevision(id: string, url: string)

  /** Everything observable about one run: the requests in order and the answer (`None` is `null`). */
  datatype Run = Run(requests: seq<Request>, result: Option<BrowserRevision>)

  /** The `Authorization` header value. */
  function Authorization(accessToken: string): string
  {
    "Bearer " + accessToken
  }

  /** The run's traffic tag, `b` followed by the random identifier. */
  function Tag(ctx: Context): string
  {
    RevisionTag(ctx.generatedId)
  }

  /** The run's revision name, `<service>-<tag>`. */
  function Name(ctx: Context): string
  {
    RevisionName(ctx.serviceId, Tag(ctx))
  }

  /** The revision URL, built before any API call from the parsed region text. */
  function Url(ctx: Context): string
  {
    var info := ParseRegion(ctx.regionText);
    RevisionUrl(Tag(ctx), ctx.serviceId, info.projectNumber, info.region)
  }

  /** The service's API URL, used for both the GET and the PATCH. */
  function Endpoint(ctx: Context): string
  {
    ApiUrl(ctx.projectId, ParseRegion(ctx.regionText).region, ctx.serviceId)
  }

  /** The request that fetches the service definition. */
  function GetRequest(ctx: Context): Request
  {
    Get(Endpoint(ctx), Authorization(ctx.accessToken))
  }

  /**
   * The definition the PATCH carries, when the fetched response gets that
   * far: the GET succeeded, its body is JSON, the definition can be taken
   * apart (the `push` does not throw) and the revision assignment does not
   * throw.
   */
  function PatchedDefinition(ctx: Context, getResponse: Response): (body: Option<Json>)
    ensures body.Some? <==>
      && getResponse.Succeeded() && getResponse.json.Some?
      && Decompose(getResponse.json.value).Some?
      && AssignRevision(Decompose(getResponse.json.value).value.template, Name(ctx)).Some?
    ensures body.Some? ==>
      Decompose(body.value) == Update(Decompose(getResponse.json.value).value, Tag(ctx), Name(ctx))
  {
    if !getResponse.Succeeded() || getResponse.json.None? then None
    else match Decompose(getResponse.json.value)
      case None => None
      case Some(parts) =>
        match Update(parts, Tag(ctx), Name(ctx))
        case None => None
        case Some(updated) =>
          ComposeDecompose(updated);
          Some(Compose(updated))
  }

  /**
   * The specification of a run. Every error inside the `try` block (a failed
   * fetch, a response that is not ok, a body that is not JSON, a `TypeError`
   * while updating the definition) ends the run with `null`; a PATCH is sent
   * only when the updated definition exists.
   */
  function Expected(ctx: Context, getResponse: Response, patchResponse: Response): Run
  {
    match PatchedDefinition(ctx, getResponse)
    case None => Run([GetRequest(ctx)], None)
    case Some(body) =>
      var patch := Patch(Endpoint(ctx), Authorization(ctx.accessToken), body);
      if patchResponse.Succeeded() then Run([GetRequest(ctx), patch], Some(BrowserRevision(Tag(ctx), Url(ctx))))
      else Run([GetRequest(ctx), patch], None)
  }

  /**
   * `createNewBrowserRevision`, step by step: the fetched definition is a
   * `ServiceDefinition` object changed in place before it is sent back.
   */
  method CreateNewBrowserRevision(ctx: Context, getResponse: Response, patchResponse: Response)
    returns (requests: seq<Request>, result: Option<BrowserRevision>)
    ensures Run(requests, result) == Expected(ctx, getResponse, patchResponse)
  {
    var revisionTag := RevisionTag(ctx.generatedId);
    var revisionName := RevisionName(ctx.serviceId, revisionTag);
    var info := ParseRegion(ctx.regionText);
    var revisionUrl := RevisionUrl(revisionTag, ctx.serviceId, info.projectNumber, info.region);
    var apiUrl := ApiUrl(ctx.projectId, info.region, ctx.serviceId);
    var authorization := Authorization(ctx.accessToken);

    requests := [Get(apiUrl, authorization)];
    result := None;
    if !getResponse.Succeeded() || getResponse.json.None? {
      assert PatchedDefinition(ctx, getResponse).None?;
      return;
    }
    var parts := Decompose(getResponse.json.value);
    if parts.None? {
      assert PatchedDefinition(ctx, getResponse).None?;
      return;
    }
    var requestBody := new ServiceDefinition(parts.value);
    requestBody.PushTraffic(RevisionTarget(revisionTag, revisionName));
    var applied := requestBody.SetTemplateRevision(revisionName);
    if !applied {
      assert PatchedDefinition(ctx, getResponse).None?;
      return;
    }
    assert Update(parts.value, revisionTag, revisionName) == Some(requestBody.Current());
    var body := requestBody.ToJson();
    assert PatchedDefinition(ctx, getResponse) == Some(body);
    requests := requests + [Patch(apiUrl, authorization, body)];
    if !patchResponse.Succeeded() {
      return;
    }
    result := Some(BrowserRevision(revisionTag, revisionUrl));
  }

  /** A GET that fails in any way ends the run with `null` and no PATCH. */
  lemma GetFailureSendsNoPatch(ctx: Context, getResponse: Response, patchResponse: Response)
    requires !getResponse.Succeeded()
    ensures Expected(ctx, getResponse, patchResponse) == Run([GetRequest(ctx)], None)
  {
  }

  /**
   * A PATCH is sent exactly when the GET succeeded and the definition could
   * be updated. Otherwise the run sends the GET alone; when it does send a
   * PATCH, that is the second and last request. The GET always comes first.
   */
  lemma PatchSentIff(ctx: Context, getResponse: Response, patchResponse: Response)
    ensures var run := Expected(ctx, getResponse, patchResponse);
      (exists i :: 0 <= i < |run.requests| && run.requests[i].Patch?) <==> PatchedDefinition(ctx, getResponse).Some?
    ensures var run := Expected(ctx, getResponse, patchResponse);
      PatchedDefinition(ctx, getResponse).None? ==> run.requests == [GetRequest(ctx)]
    ensures var run := Expected(ctx, getResponse, patchResponse);
      PatchedDefinition(ctx, getResponse).Some? ==> |run.requests| == 2 && run.requests[1].Patch?
    ensures var run := Expected(ctx, getResponse, patchResponse);
      run.requests[0] == GetRequest(ctx) && (run.result.Some? ==> |run.requests| == 2)
  {
    var get := GetRequest(ctx);
    var run := Expected(ctx, getResponse, patchResponse);
    match PatchedDefinition(ctx, getResponse)
    case None =>
      assert run.requests == [get];
      assert !get.Patch?;
    case Some(body) =>
      assert |run.requests| == 2;
      assert run.requests[0] == get;
      assert run.requests[1].Patch?;
  }

  /**
   * The PATCH goes to the same URL with the same credential as the GET, and
   * its body is the fetched definition with exactly one more traffic target,
   * `{tag, revision, type}`, after the unchanged earlier ones, the fetched
   * template with the revision assignment applied (on an object template:
   * `revision` set, every other member kept), and every other member of the
   * definition unchanged.
   */
  lemma PatchCarriesUpdatedDefinition(ctx: Context, getResponse: Response, patchResponse: Response)
    requires |Expected(ctx, getResponse, patchResponse).requests| == 2
    ensures var run := Expected(ctx, getResponse, patchResponse);
      var get := run.requests[0];
      var patch := run.requests[1];
      && patch.Patch? && patch.url == get.url && patch.authorization == get.authorization
      && getResponse.Succeeded() && getResponse.json.Some?
      && var fetched := Decompose(getResponse.json.value);
      && var sent := Decompose(patch.body);
      && fetched.Some? && sent.Some?
      && |sent.value.traffic| == |fetched.value.traffic| + 1
      && sent.value.traffic[..|fetched.value.traffic|] == fetched.value.traffic
      && sent.value.traffic[|fetched.value.traffic|] == RevisionTarget(Tag(ctx), Name(ctx))
      && sent.value.rest == fetched.value.rest
      && sent.value.template == AssignRevision(fetched.value.template, Name(ctx))
  {
    var fetched := Decompose(getResponse.json.value).value;
    var updated := Update(fetched, Tag(ctx), Name(ctx)).value;
    ComposeDecompose(updated);
  }

  /** A PATCH that fails in any way ends the run with `null`. */
  lemma PatchFailureYieldsNull(ctx: Context, getResponse: Response, patchResponse: Response)
    requires !patchResponse.Succeeded()
    ensures Expected(ctx, getResponse, patchResponse).result == None
  {
  }

  /**
   * The run answers `{id, url}` exactly when both calls succeed and the
   * definition could be updated; then `id` is the tag and `url` the revision
   * URL, never anything read from the platform's response.
   */
  lemma SuccessIff(ctx: Context, getResponse: Response, patchResponse: Response)
    ensures var run := Expected(ctx, getResponse, patchResponse);
      run.result.Some? <==> PatchedDefinition(ctx, getResponse).Some? && patchResponse.Succeeded()
    ensures var run := Expected(ctx, getResponse, patchResponse);
      run.result.Some? ==> run.result.value == BrowserRevision(Tag(ctx), Url(ctx))
  {
  }

  /**
   * On success the answered `id` is the tag at the front of the answered
   * `url`, and the URL also names the service, the project number (the word
   * `undefined` when the region text has fewer than two `/`) and the region.
   */
  lemma SuccessUrlCarriesId(ctx: Context, getResponse: Response, patchResponse: Response)
    requires IsGeneratedId(ctx.generatedId)
    requires '.' !in ctx.serviceId
    requires var info := ParseRegion(ctx.regionText);
      && (info.projectNumber.Some? ==> '-' !in info.projectNumber.value && '.' !in info.projectNumber.value)
      && '.' !in info.region
    requires Expected(ctx, getResponse, patchResponse).result.Some?
    ensures var answer := Expected(ctx, getResponse, patchResponse).result.value;
      var info := ParseRegion(ctx.regionText);
      ParseRevisionUrl(answer.url)
        == Some(RevisionUrlParts(answer.id, ctx.serviceId, Interpolate(info.projectNumber), info.region))
  {
    var info := ParseRegion(ctx.regionText);
    RevisionTagSeparatorFree(Tag(ctx));
    RevisionUrlRoundTrip(Tag(ctx), ctx.serviceId, info.projectNumber, info.region);
  }

  /**
   * The API URL names the project from the metadata, the region parsed from
   * the region text, and the service.
   */
  lemma EndpointNamesService(ctx: Context)
    requires '/' !in ctx.projectId && '/' !in ctx.serviceId
    ensures ParseApiUrl(Endpoint(ctx))
         == Some(ServiceResource(ctx.projectId, ParseRegion(ctx.regionText).region, ctx.serviceId))
  {
    ApiUrlRoundTrip(ctx.projectId, ParseRegion(ctx.regionText).region, ctx.serviceId);
  }

  /**
   * An example run, for any project number and region: with region
   * text `projects/NUMBER/regions/REGION`, service `browser`, a definition
   * with an empty traffic list and an object template, and two successful
   * calls, the run answers
   * `{id: "b" + ID, url: "https://b" + ID + "---browser-NUMBER.REGION.run.app"}`.
   */
  lemma ExampleSuccessfulRun(ctx: Context, number: string, region: string, template: map<string, Json>, patchJson: Option<Json>)
    requires '/' !in number && '/' !in region
    requires ctx.serviceId == "browser" && ctx.regionText == "projects/" + number + "/regions/" + region
    ensures var fetched := JObject(map["traffic" := JArray([]), "template" := JObject(template)]);
      var run := Expected(ctx, Received(true, Some(fetched)), Received(true, patchJson));
      run.result == Some(BrowserRevision("b" + ctx.generatedId,
        "https://b" + ctx.generatedId + "---browser-" + number + "." + region + ".run.app"))
  {
    ExampleDefinitionAccepted(ctx, template);
    ExampleRunUrl(ctx, number, region);
  }

  /** A definition with an empty traffic list and an object template gets as far as the PATCH. */
  lemma ExampleDefinitionAccepted(ctx: Context, template: map<string, Json>)
    ensures PatchedDefinition(ctx, Received(true, Some(JObject(map["traffic" := JArray([]), "template" := JObject(template)])))).Some?
  {
    var fetched := JObject(map["traffic" := JArray([]), "template" := JObject(template)]);
    assert Decompose(fetched).Some?;
    assert Decompose(fetched).value.template == Some(JObject(template));
  }

  /** The revision URL for region text of the form `projects/N/regions/R`. */
  lemma ExampleRunUrl(ctx: Context, number: string, region: string)
    requires '/' !in number && '/' !in region
    requires ctx.serviceId == "browser" && ctx.regionText == "projects/" + number + "/regions/" + region
    ensures Url(ctx) == "https://b" + ctx.generatedId + "---browser-" + number + "." + region + ".run.app"
  {
    ParseDocumentedForm(number, region);
    assert Url(ctx) == UrlScheme + RevisionHost("b" + ctx.generatedId, "browser", number, region) + RunAppSuffix;
    SpelledExampleUrl(ctx.generatedId, number, region);
  }

  /** The pieces of the example revision URL, written out as one string. */
  lemma SpelledExampleUrl(generatedId: string, number: string, region: string)
    ensures UrlScheme + RevisionHost("b" + generatedId, "browser", number, region) + RunAppSuffix
         == "https://b" + generatedId + "---browser-" + number + "." + region + ".run.app"
  {
  }
}
