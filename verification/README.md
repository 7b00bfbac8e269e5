# Browser revision dispenser — a Dafny model

The dispenser is a small Node.js HTTP service (`server.js`). It hands out
fresh browser instances on Cloud Run. On a POST it creates a new revision of
the browser service, with a randomly drawn traffic tag (collisions with
earlier tags are not checked), and answers with the tag and the URL of the
tagged revision (`{id, url}`). If anything goes wrong it
answers `null`.

This project models the core of that service, `createNewBrowserRevision`,
and the helpers it relies on:

- `strings.dfy`: `Wrappers.Option` stands for JavaScript's
  `undefined`/`null` alternatives. `Strings` models `String.prototype.split`
  with a one-character separator, and `Array.prototype.join`.
- `region.dfy` (`Region`): how the region metadata text
  `projects/PROJECT-NUMBER/regions/REGION` is read into a region and a
  project number. The project number is `undefined` when the text has
  fewer than three pieces.
- `names.dfy` (`Names`): the traffic tag `b<id>` and the revision name
  `<service>-<tag>`. Also the public revision URL
  `https://<tag>---<service>-<number>.<region>.run.app` and the Cloud Run
  Admin API URL of the service. Each builder is paired with a parser, and
  round-trip lemmas show that the built string determines its parts.
- `service.dfy` (`JsonValues`, `ServiceDefinitions`): the fetched service
  definition. `ServiceDefinition` is a class changed in place, like
  `requestBody` in the source: the traffic list gains one tagged target and
  the template's revision is overwritten. A pure `Update` on values is its
  specification. `Decompose`/`Compose` relate the object to the JSON
  document sent back.
- `provisioner.dfy` (`Provisioner`): the workflow. `Expected` specifies a
  whole run: the requests issued and the answer. `CreateNewBrowserRevision`
  is the step-by-step method, proved to produce `Expected`. Lemmas state
  the error paths, when a PATCH is sent, what it carries, and what a
  successful answer contains.

The network is abstract. The values read from the metadata server (project
id, region text, access token) are inputs. So are the random identifier and
the outcomes of the GET and PATCH calls: a network error, or a response
with its `ok` flag and its body parsed as JSON (absent when the body is not
JSON). The requests the workflow issues are part of its result.

JavaScript semantics that the model keeps explicit:

- An index below zero in the split array reads `undefined`, and a template
  literal renders that as the text `undefined`. This is `Names.Interpolate`.
- The module runs in strict mode, so `requestBody.template.revision = …`:
  - sets the member when the template is an object;
  - succeeds on an array, but `JSON.stringify` does not serialise the
    property, so the document is unchanged;
  - throws a `TypeError` when the template is missing, `null` or a
    primitive. That ends the run with `null` before any PATCH.
- `requestBody.traffic.push(…)` throws, and the run ends with `null` before
  any PATCH, unless the fetched body is an object whose `traffic` member is
  an array.

The comment at server.js:61 promises a six-letter identifier. The code at
server.js:62 takes up to six base-36 digits of a random fraction, so it
yields fewer when the fraction's base-36 expansion is short. The model follows the code:
`Names.IsGeneratedId` allows any length up to six.

## Model

| member | source | states |
|---|---|---|
| Strings.Split | server.js:49 | `split('/')` always yields at least one piece, and no piece contains the separator |
| Strings.JoinSplit | server.js:49 | joining the pieces of a split with the separator gives back the split text |
| Strings.SplitCount | server.js:49-51 | a split yields exactly one piece more than the text has separators, which decides whether the third piece from the end exists |
| Strings.SplitJoin | server.js:49 | splitting a join of separator-free parts (at least one) gives back exactly those parts |
| Strings.SplitLast | server.js:50 | the last piece of a split is the longest separator-free suffix of the text: all of it, or what follows the last separator |
| Region.ParseRegion | server.js:49-53 | the region is the `/`-free suffix of the text after its last `/`; a project number is read exactly when the text has at least two `/`, and then it is `/`-free |
| Region.ParseJoined | server.js:48-53 | for any text of three or more `/`-free segments, whatever the leading ones, the region is the last segment and the project number the third from the end |
| Region.ParseDocumentedForm | server.js:48-53 | the form `projects/N/regions/R` that the comment at server.js:48 gives yields region `R` and project number `N` |
| Names.IsGeneratedId | server.js:62 | the identifiers the random draw can yield: at most six base-36 digits (`Names.RevisionTag` and `Names.RevisionTagSeparatorFree` state what this means for the tag) |
| Names.RevisionTag | server.js:62-66 | the tag is `b` followed by the identifier, one character longer; it is a well-formed tag exactly when the identifier is a generated one |
| Names.RevisionTagSeparatorFree | server.js:62-66 | a tag built from a generated identifier contains no `-`, `.` or `/` |
| Names.RevisionTagInjective | server.js:66 | distinct identifiers give distinct tags |
| Names.RevisionName | server.js:67 | builds `<service>-<tag>`; `Names.RevisionNameRoundTrip` proves the name determines both parts |
| Names.ParseRevisionName | server.js:67 | reading a revision name back yields a tag without a dash |
| Names.RevisionNameRoundTrip | server.js:67 | for a dash-free tag, the revision name `<service>-<tag>` determines the service identifier and the tag, even when the service identifier contains dashes |
| Names.Interpolate | server.js:73 | renders a project number in the template literal, the word `undefined` when it is absent; the rendering holds a `-` or `.` exactly when a present value does, so an absent number never breaks reading the URL back |
| Names.RevisionHost | server.js:73 | builds the host `<tag>---<service>-<number>.<region>`; `Names.RevisionHostRoundTrip` proves it determines its four parts |
| Names.RevisionUrl | server.js:73 | builds `https://<host>.run.app` with the project number rendered by `Names.Interpolate`; `Names.RevisionUrlRoundTrip` proves it determines its parts |
| Names.ParseRevisionUrl | server.js:73 | a revision URL that can be read back yields a dash-free tag and project number and a dot-free region |
| Names.RevisionHostRoundTrip | server.js:73 | the host `<tag>---<service>-<number>.<region>` determines its four parts when the tag and number have no `-` or `.` and the service and region have no `.` |
| Names.RevisionUrlRoundTrip | server.js:73 | the revision URL determines tag, service, project number (as rendered, `undefined` when absent) and region, under the same separator conditions |
| Names.ResourcePath | server.js:77 | builds `<project>/locations/<region>/services/<service>`; `Names.ResourcePathRoundTrip` proves it determines its parts |
| Names.ApiUrl | server.js:77 | builds the Admin API URL of the service under `https://run.googleapis.com/v2/projects/`; `Names.ApiUrlRoundTrip` proves it names exactly its project, region and service |
| Names.ParseApiUrl | server.js:77 | an API URL that can be read back names a `/`-free project, location and service |
| Names.ResourcePathRoundTrip | server.js:77 | `<project>/locations/<region>/services/<service>` determines its three `/`-free parts |
| Names.ApiUrlRoundTrip | server.js:77 | the Admin API URL names exactly the project, region and service it was built from |
| ServiceDefinitions.RevisionTarget | server.js:102-106 | the appended traffic target has exactly the members `tag`, `revision` and `type`, with the tag, the revision name and the revision allocation type |
| ServiceDefinitions.Decompose | server.js:98-102 | a fetched definition can be updated exactly when it is an object whose `traffic` member is an array; the parts then hold neither `traffic` nor `template` among the other members |
| ServiceDefinitions.Compose | server.js:115 | puts the parts back into one object; `ServiceDefinitions.ComposeDecompose` and `ServiceDefinitions.DecomposeCompose` prove it inverse to `Decompose` |
| ServiceDefinitions.DecomposeCompose | server.js:98-115 | taking a definition apart and putting it back together gives the same document |
| ServiceDefinitions.ComposeDecompose | server.js:115 | putting valid parts together and taking them apart gives the same parts |
| ServiceDefinitions.AssignRevision | server.js:107 | the assignment succeeds exactly on an object or array template; on an object it adds or overwrites `revision` and keeps every other member; on an array the serialised template is unchanged |
| ServiceDefinitions.Update | server.js:102-107 | the update succeeds exactly when the revision assignment does; then the traffic list is the old one, in order, plus the new target, the template is the assigned one and all other members are unchanged |
| ServiceDefinitions.ServiceDefinition.constructor | server.js:98 | the object holds exactly the parts of the fetched definition |
| ServiceDefinitions.ServiceDefinition.ToJson | server.js:115 | the serialised document takes apart into the object's present state |
| ServiceDefinitions.ServiceDefinition.PushTraffic | server.js:102-106 | the target is appended to the traffic list; template and other members are unchanged |
| ServiceDefinitions.ServiceDefinition.SetTemplateRevision | server.js:107 | reports whether the assignment succeeds and leaves the template as `AssignRevision` gives it, or unchanged when it throws; traffic and other members are unchanged |
| Provisioner.Authorization | server.js:88 | the `Bearer <token>` header value (also at server.js:113); `Provisioner.PatchCarriesUpdatedDefinition` proves GET and PATCH carry the same one |
| Provisioner.PatchedDefinition | server.js:92-115 | a PATCH body exists exactly when the GET succeeded with a JSON body, the definition has a `traffic` array and the revision assignment does not throw; the body then takes apart into the `Update` of the fetched definition |
| Provisioner.Expected | server.js:81-137 | the specification of a run (requests and answer); its properties are the `Provisioner` lemmas below, and `Provisioner.CreateNewBrowserRevision` is proved to meet it |
| Provisioner.Url | server.js:73 | the run's revision URL, built from the parsed region text; `Provisioner.SuccessUrlCarriesId` proves the answered URL reads back to the answered id, service, project number and region |
| Provisioner.Endpoint | server.js:77 | the run's API URL, used by both requests; `Provisioner.EndpointNamesService` proves it names the metadata project, the parsed region and the service |
| Provisioner.CreateNewBrowserRevision | server.js:60-137 | the in-place workflow issues exactly the requests and gives exactly the answer of the specification `Expected` |
| Provisioner.GetFailureSendsNoPatch | server.js:92-96 | a GET that fails (network error or a response that is not ok) ends the run with `null` after the GET alone |
| Provisioner.PatchSentIff | server.js:92-120 | the first request is always the GET; some request is a PATCH exactly when the fetched definition could be updated; when it cannot, the GET is the only request; when it can, the PATCH is the second and last request; every successful run sent it |
| Provisioner.PatchCarriesUpdatedDefinition | server.js:84-120 | the PATCH goes to the GET's URL with the same credential; its body is the fetched definition with one target appended after the unchanged earlier ones, the fetched template with the revision assignment applied (`revision` set and every other member kept on an object), and all other members unchanged |
| Provisioner.PatchFailureYieldsNull | server.js:120-124 | a PATCH that fails ends the run with `null` |
| Provisioner.SuccessIff | server.js:81-137 | the run answers `{id, url}` exactly when the GET succeeds, the definition can be updated and the PATCH succeeds; the answer is the tag and the revision URL |
| Provisioner.SuccessUrlCarriesId | server.js:66-73 | on success, with a generated identifier and separator-free parts, reading the answered URL back yields the answered id, the service, the project number and the region |
| Provisioner.EndpointNamesService | server.js:77 | the API URL of a run names the metadata project, the region parsed from the region text, and the service |
| Provisioner.ExampleSuccessfulRun | server.js:48-132 | an example run: with region text `projects/N/regions/R`, service `browser`, an empty traffic list, an object template and two successful calls, the answer is `{id: "b"+ID, url: "https://b"+ID+"---browser-N.R.run.app"}` |
| Provisioner.ExampleRunUrl | server.js:73 | the revision URL for region text `projects/N/regions/R` and service `browser` spelled out |

## Left out

- Metadata fetches (server.js:5-58) are not modelled as calls. Their results are inputs (`Provisioner.Context`). Their `null` fallbacks on error (server.js:16-19, 32-35, 54-57) are not modelled separately: a `null` project id or token just becomes the text `null` in a URL or header, which the string inputs already cover.
- A `null` region result makes the destructuring at server.js:70 throw outside the `try`, so the promise rejects instead of answering `null`. The model assumes the region text was fetched. This path is left out.
- The random identifier (server.js:62) is an input. `Names.IsGeneratedId` states which values it can take.
- The fixed 15-second wait after the PATCH (server.js:127) is a timer and is not modelled.
- The HTTP server, its HTML page and the serialisation of the answer (server.js:140-159) are not modelled. Neither is the service identifier's environment default (server.js:3).
- Logging is not modelled. The `Content-Type` header and error message texts are not modelled either; an error is only the end of the run with `null`.
- The body of a failed response (server.js:94, 122) is read only for the error message, so it is not modelled.
- JSON text is not modelled, only parsed JSON values: there is no parsing or printing, and member order is not kept.
- Numbers are kept as their literal text, but `response.json()` and `JSON.stringify` (server.js:98, 115) rewrite them: `1.0` becomes `1`, and integers beyond 2^53 are rounded. "Unchanged" members in the `ServiceDefinitions.Update` and `Provisioner.PatchCarriesUpdatedDefinition` rows are unchanged only up to that rewriting.
- ServiceDefinitions.ServiceDefinition.ToJson: states the serialised document as a value up to member order, not as text.
- An array template that gains a `revision` property is modelled as an unchanged template. The property exists in memory, but it is not in the PATCH body, which is all the run observes.
