/**
 * A parsed JSON document, the value the provisioner reads from a response
 * body and serialises into a request body. A number is kept as literal text,
 * without the rewriting (`1.0` to `1`, rounding beyond 2^53) that parsing and
 * serialising apply; member order inside an object is not modelled.
 */
module JsonValues {
  datatype Json =
    | JNull
    | JBool(b: bool)
    | JNumber(literal: string)
    | JString(text: string)
    | JArray(items: seq<Json>)
    | JObject(members: map<string, Json>)
}

/**
 * The Cloud Run service definition that the provisioner fetches, changes in
 * place and sends back (server.js, createNewBrowserRevision): a `traffic`
 * list that gains one tagged target, a `template` whose `revision` is
 * overwritten, and every other member passed through untouched.
 */
module ServiceDefinitions {
  import opened Wrappers
  import opened JsonValues

  /** The allocation type of a traffic target that names one revision. */
  const RevisionAllocationType: string := "TRAFFIC_TARGET_ALLOCATION_TYPE_REVISION"

  /** The traffic target the provisioner appends: `{tag, revision, type}`. */
  function RevisionTarget(tag: string, revisionName: string): (target: Json)
    ensures target.JObject? && target.members.Keys == {"tag", "revision", "type"}
    ensures target.members["tag"] == JString(tag)
    ensures target.members["revision"] == JString(revisionName)
    ensures target.members["type"] == JString(RevisionAllocationType)
  {
    JObject(map["tag" := JString(tag), "revision" := JString(revisionName), "type" := JString(RevisionAllocationType)])
  }

  /**
   * A definition taken apart: the `traffic` array, the `template` member
   * (`None` when absent, that is `undefined`), and every other top-level
   * member.
   */
  datatype Parts = Parts(traffic: seq<Json>, template: Option<Json>, rest: map<string, Json>)
  {
    /** `rest` holds neither of the two members the provisioner touches. */
    predicate Valid()
    {
      "traffic" !in rest && "template" !in rest
    }
  }

  /**
   * Takes a fetched definition apart. It succeeds exactly when
   * `requestBody.traffic.push(...)` can run: the document is an object whose
   * `traffic` member is an array. Anything else makes `push` throw a
   * `TypeError`.
   */
  function Decompose(doc: Json): (parts: Option<Parts>)
    ensures parts.Some? <==> doc.JObject? && "traffic" in doc.members && doc.members["traffic"].JArray?
    ensures parts.Some? ==> parts.value.Valid()
  {
    match doc
    case JObject(members) =>
      if "traffic" in members && members["traffic"].JArray? then
        Some(Parts(
          members["traffic"].items,
          if "template" in members then Some(members["template"]) else None,
          members - {"traffic", "template"}))
      else None
    case _ => None
  }

  /** Puts a definition back together, as the document `JSON.stringify` serialises. */
  function Compose(parts: Parts): Json
  {
    var withTraffic := parts.rest["traffic" := JArray(parts.traffic)];
    JObject(if parts.template.Some? then withTraffic["template" := parts.template.value] else withTraffic)
  }

  /** Taking a definition apart and putting it back together gives the same document. */
  lemma DecomposeCompose(doc: Json)
    requires Decompose(doc).Some?
    ensures Compose(Decompose(doc).value) == doc
  {
    var members := doc.members;
    var composed := Compose(Decompose(doc).value).members;
    assert composed.Keys == members.Keys;
    forall k | k in members ensures composed[k] == members[k] {
    }
  }

  /** Putting valid parts together and taking them apart gives the same parts. */
  lemma ComposeDecompose(parts: Parts)
    requires parts.Valid()
    ensures Decompose(Compose(parts)) == Some(parts)
  {
    var members := Compose(parts).members;
    assert members - {"traffic", "template"} == parts.rest;
  }

  /**
   * `template.revision = name` in strict mode: on an object it sets the
   * member; on an array it sets a property that `JSON.stringify` does not
   * serialise, so the document is unchanged; on `undefined`, `null` or a
   * primitive it throws a `TypeError` (`None`).
   */
  function AssignRevision(template: Option<Json>, revisionName: string): (written: Option<Json>)
    ensures written.Some? <==> template.Some? && (template.value.JObject? || template.value.JArray?)
    ensures written.Some? && template.value.JObject? ==>
      && written.value.JObject?
      && written.value.members.Keys == template.value.members.Keys + {"revision"}
      && written.value.members["revision"] == JString(revisionName)
      && forall k :: k in template.value.members && k != "revision" ==>
           written.value.members[k] == template.value.members[k]
    ensures written.Some? && template.value.JArray? ==> written == template
  {
    match template
    case Some(JObject(members)) => Some(JObject(members["revision" := JString(revisionName)]))
    case Some(JArray(_)) => template
    case _ => None
  }

  /**
   * The whole update on values: append the revision target to `traffic`,
   * then assign the template's revision; `None` when the assignment throws.
   * On success the traffic list grows by exactly that target, earlier
   * entries unchanged and in order, and the other members are untouched.
   */
  function Update(parts: Parts, tag: string, revisionName: string): (updated: Option<Parts>)
    ensures updated.Some? <==> AssignRevision(parts.template, revisionName).Some?
    ensures updated.Some? ==>
      && |updated.value.traffic| == |parts.traffic| + 1
      && updated.value.traffic[..|parts.traffic|] == parts.traffic
      && updated.value.traffic[|parts.traffic|] == RevisionTarget(tag, revisionName)
      && updated.value.template == AssignRevision(parts.template, revisionName)
      && updated.value.rest == parts.rest
  {
    var traffic := parts.traffic + [RevisionTarget(tag, revisionName)];
    assert traffic[..|parts.traffic|] == parts.traffic;
    match AssignRevision(parts.template, revisionName)
    case None => None
    case Some(template) => Some(Parts(traffic, Some(template), parts.rest))
  }

  /**
   * The fetched definition, which the provisioner changes in place. Its
   * fields are the parts of the document; `ToJson` is the document that the
   * PATCH request carries.
   */
  class ServiceDefinition {
    var traffic: seq<Json>
    var template: Option<Json>
    var rest: map<string, Json>

    ghost predicate Valid()
      reads this
    {
      Current().Valid()
    }

    /** The definition's present state as a value. */
    function Current(): Parts
      reads this
    {
      Parts(traffic, template, rest)
    }

    constructor (parts: Parts)
      requires parts.Valid()
      ensures Valid() && Current() == parts
    {
      traffic := parts.traffic;
      template := parts.template;
      rest := parts.rest;
    }

    /** The document `JSON.stringify(requestBody)` serialises; it takes apart into the present state. */
    function ToJson(): (doc: Json)
      reads this
      requires Valid()
      ensures Decompose(doc) == Some(Current())
    {
      ComposeDecompose(Current());
      Compose(Current())
    }

    /** `requestBody.traffic.push(target)`. */
    method PushTraffic(target: Json)
      requires Valid()
      modifies this
      ensures Valid()
      ensures traffic == old(traffic) + [target]
      ensures template == old(template) && rest == old(rest)
    {
      traffic := traffic + [target];
    }

    /**
     * `requestBody.template.revision = revisionName`; `ok` is false when the
     * assignment throws, and then nothing changes.
     */
    method SetTemplateRevision(revisionName: string) returns (ok: bool)
      requires Valid()
      modifies this
      ensures Valid()
      ensures ok <==> AssignRevision(old(template), revisionName).Some?
      ensures template == if ok then AssignRevision(old(template), revisionName) else old(template)
      ensures traffic == old(traffic) && rest == old(rest)
    {
      match template {
        case Some(JObject(members)) =>
          template := Some(JObject(members["revision" := JString(revisionName)]));
          ok := true;
        case Some(JArray(_)) =>
          ok := true;
        case _ =>
          ok := false;
      }
    }
  }
}
