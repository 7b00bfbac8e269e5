/**
 * The names and addresses the provisioner derives for a new revision
 * (server.js, createNewBrowserRevision): the traffic tag, the revision name,
 * the public URL of the tagged revision and the Cloud Run Admin API URL of
 * the service. Each builder is paired with a parser that reads its parts
 * back, and round-trip lemmas show that the built string determines them.
 */
module Names {
  import opened Wrappers
  import opened Strings

  /** A digit of `Number.prototype.toString(36)`. */
  predicate IsBase36Digit(c: char)
  {
    '0' <= c <= '9' || 'a' <= c <= 'z'
  }

  /**
   * What `Math.random().toString(36).substring(2, 8)` can yield: at most six
   * base-36 digits (fewer when the fraction has fewer digits).
   */
  predicate IsGeneratedId(id: string)
  {
    |id| <= 6 && forall i :: 0 <= i < |id| ==> IsBase36Digit(id[i])
  }

  /** A string made of the tag letter followed by a generated identifier. */
  predicate IsRevisionTag(tag: string)
  {
    |tag| >= 1 && tag[0] == 'b' && IsGeneratedId(tag[1..])
  }

  /** The traffic tag: the letter `b` in front of the generated identifier. */
  function RevisionTag(generatedId: string): (tag: string)
    ensures |tag| == |generatedId| + 1 && tag[0] == 'b'
    ensures IsGeneratedId(generatedId) <==> IsRevisionTag(tag)
    ensures tag[1..] == generatedId
  {
    var tag := "b" + generatedId;
    assert tag[1..] == generatedId;
    tag
  }

  /** A tag never contains the separators the URL and the revision name use. */
  lemma RevisionTagSeparatorFree(tag: string)
    requires IsRevisionTag(tag)
    ensures '-' !in tag && '.' !in tag && '/' !in tag
  {
    forall i | 1 <= i < |tag| ensures IsBase36Digit(tag[i]) {
      assert tag[i] == tag[1..][i - 1];
    }
  }

  /** Distinct identifiers give distinct tags, and the tag gives back the identifier. */
  lemma RevisionTagInjective(id1: string, id2: string)
    requires RevisionTag(id1) == RevisionTag(id2)
    ensures id1 == id2
  {
    assert RevisionTag(id1)[1..] == id1;
  }

  /** The revision name: the service identifier, a dash, and the tag. */
  function RevisionName(serviceId: string, tag: string): string
  {
    serviceId + "-" + tag
  }

  /**
   * Reads a revision name back: the tag is what follows the last dash, the
   * service identifier is everything before it.
   */
  function ParseRevisionName(name: string): (parts: (string, string))
    ensures '-' !in parts.1
  {
    var pieces := Split(name, '-');
    (Join(pieces[..|pieces| - 1], '-'), pieces[|pieces| - 1])
  }

  /** A revision name determines its service identifier and its tag. */
  lemma {:induction false} RevisionNameRoundTrip(serviceId: string, tag: string)
    requires '-' !in tag
    ensures ParseRevisionName(RevisionName(serviceId, tag)) == (serviceId, tag)
  {
    assert RevisionName(serviceId, tag) == serviceId + ['-'] + tag;
    SplitAround(serviceId, tag, '-');
    SplitNoSeparator(tag, '-');
    JoinSplit(serviceId, '-');
    var pieces := Split(RevisionName(serviceId, tag), '-');
    assert pieces[..|pieces| - 1] == Split(serviceId, '-');
  }

  /**
   * How a template literal renders a value that may be `undefined`: the
   * text itself, or the word `undefined`. The rendering holds a dash or a dot
   * only when the value itself does, so a missing project number never breaks
   * the reading of a revision URL.
   */
  function Interpolate(value: Option<string>): (text: string)
    ensures ('-' !in text && '.' !in text) <==> (value.None? || ('-' !in value.value && '.' !in value.value))
  {
    match value
    case Some(s) => s
    case None =>
      var word := "undefined";
      assert forall i :: 0 <= i < |word| ==> word[i] != '-' && word[i] != '.';
      word
  }


  const UrlScheme: string := "https://"
  const RunAppSuffix: string := ".run.app"

  /** The components of a revision URL. */
  datatype RevisionUrlParts = RevisionUrlParts(tag: string, serviceId: string, projectNumber: string, region: string)

  /** The host of a tagged revision, without its `.run.app` suffix: `TAG---SERVICE-NUMBER.REGION`. */
  function RevisionHost(tag: string, serviceId: string, number: string, region: string): string
  {
    tag + "---" + serviceId + "-" + number + "." + region
  }

  /**
   * The public URL of the tagged revision,
   * `https://TAG---SERVICE-PROJECTNUMBER.REGION.run.app`, with the project
   * number rendered as a template literal renders it.
   */
  function RevisionUrl(tag: string, serviceId: string, projectNumber: Option<string>, region: string): string
  {
    UrlScheme + RevisionHost(tag, serviceId, Interpolate(projectNumber), region) + RunAppSuffix
  }

  /**
   * Reads a revision URL back: strip the scheme and the `.run.app` suffix and
   * read the host that remains.
   */
  function ParseRevisionUrl(url: string): (parts: Option<RevisionUrlParts>)
    ensures parts.Some? ==> '-' !in parts.value.tag && '-' !in parts.value.projectNumber
    ensures parts.Some? ==> '.' !in parts.value.region
  {
    if |url| < |UrlScheme| + |RunAppSuffix|
       || url[..|UrlScheme|] != UrlScheme
       || url[|url| - |RunAppSuffix|..] != RunAppSuffix
    then None
    else ParseRevisionHost(url[|UrlScheme|..|url| - |RunAppSuffix|])
  }

  /**
   * Reads the host `TAG---SERVICE-NUMBER.REGION`: split it on `.` into the
   * label and the region, then split the label on `-`: the tag comes before
   * the triple dash, the project number after the last dash, and the service
   * identifier in between.
   */
  function ParseRevisionHost(host: string): (parts: Option<RevisionUrlParts>)
    ensures parts.Some? ==> '-' !in parts.value.tag && '-' !in parts.value.projectNumber
    ensures parts.Some? ==> '.' !in parts.value.region
  {
    var labels := Split(host, '.');
    if |labels| != 2 then None
    else
      var dashes := Split(labels[0], '-');
      if |dashes| < 5 || dashes[1] != [] || dashes[2] != [] then None
      else Some(RevisionUrlParts(dashes[0], Join(dashes[3..|dashes| - 1], '-'), dashes[|dashes| - 1], labels[1]))
  }

  /** Framing a host with the scheme and the suffix and reading it back gives the host's reading. */
  lemma UrlFraming(host: string)
    ensures ParseRevisionUrl(UrlScheme + host + RunAppSuffix) == ParseRevisionHost(host)
  {
    var url := UrlScheme + host + RunAppSuffix;
    assert url[..|UrlScheme|] == UrlScheme;
    assert url[|url| - |RunAppSuffix|..] == RunAppSuffix;
    assert url[|UrlScheme|..|url| - |RunAppSuffix|] == host;
  }

  /** The label `TAG---SERVICE-NUMBER` splits on dashes into the tag, two empty pieces, the service pieces and the number. */
  lemma {:induction false} SplitHostLabel(tag: string, serviceId: string, number: string)
    requires '-' !in tag && '-' !in number
    ensures Split(tag + "---" + serviceId + "-" + number, '-')
         == [tag, [], []] + Split(serviceId, '-') + [number]
  {
    var rest3 := serviceId + ['-'] + number;
    var rest2 := [] + ['-'] + rest3;
    var rest1 := [] + ['-'] + rest2;
    assert tag + "---" + serviceId + "-" + number == tag + ['-'] + rest1;
    calc {
      Split(tag + ['-'] + rest1, '-');
    == { SplitCons(tag, rest1, '-'); }
      [tag] + Split(rest1, '-');
    == { SplitCons([], rest2, '-'); }
      [tag] + ([[]] + Split(rest2, '-'));
    == { SplitCons([], rest3, '-'); }
      [tag] + ([[]] + ([[]] + Split(rest3, '-')));
    == { SplitAround(serviceId, number, '-'); SplitNoSeparator(number, '-'); }
      [tag] + ([[]] + ([[]] + (Split(serviceId, '-') + [number])));
    }
  }

  /** The label has no dot when none of its pieces has one. */
  lemma LabelDotFree(tag: string, serviceId: string, number: string)
    requires '.' !in tag && '.' !in serviceId && '.' !in number
    ensures '.' !in tag + "---" + serviceId + "-" + number
  {
    var hostLabel := tag + "---" + serviceId + "-" + number;
    forall i | 0 <= i < |hostLabel| ensures hostLabel[i] != '.' {
      var a := |tag|;
      var b := a + 3 + |serviceId|;
      if i < a {
        assert hostLabel[i] == tag[i];
      } else if i < a + 3 {
        assert hostLabel[i] == '-';
      } else if i < b {
        assert hostLabel[i] == serviceId[i - a - 3];
      } else if i == b {
        assert hostLabel[i] == '-';
      } else {
        assert hostLabel[i] == number[i - b - 1];
      }
    }
  }

  /** A revision host determines its four pieces. */
  lemma {:induction false} RevisionHostRoundTrip(tag: string, serviceId: string, number: string, region: string)
    requires '-' !in tag && '.' !in tag
    requires '.' !in serviceId
    requires '-' !in number && '.' !in number
    requires '.' !in region
    ensures ParseRevisionHost(RevisionHost(tag, serviceId, number, region))
         == Some(RevisionUrlParts(tag, serviceId, number, region))
  {
    var hostLabel := tag + "---" + serviceId + "-" + number;
    assert RevisionHost(tag, serviceId, number, region) == hostLabel + ['.'] + region;
    LabelDotFree(tag, serviceId, number);
    SplitCons(hostLabel, region, '.');
    SplitNoSeparator(region, '.');
    SplitHostLabel(tag, serviceId, number);
    JoinSplit(serviceId, '-');
    var dashes := Split(hostLabel, '-');
    assert dashes[3..|dashes| - 1] == Split(serviceId, '-');
  }

  /**
   * A revision URL determines its tag, service identifier, project number
   * and region, provided none of the pieces contains the separator that
   * follows it (the tag and the number no dash, none of them a dot).
   */
  lemma RevisionUrlRoundTrip(tag: string, serviceId: string, projectNumber: Option<string>, region: string)
    requires '-' !in tag && '.' !in tag
    requires '.' !in serviceId
    requires '-' !in Interpolate(projectNumber) && '.' !in Interpolate(projectNumber)
    requires '.' !in region
    ensures ParseRevisionUrl(RevisionUrl(tag, serviceId, projectNumber, region))
         == Some(RevisionUrlParts(tag, serviceId, Interpolate(projectNumber), region))
  {
    UrlFraming(RevisionHost(tag, serviceId, Interpolate(projectNumber), region));
    RevisionHostRoundTrip(tag, serviceId, Interpolate(projectNumber), region);
  }

  /** The resource path of the service in the Cloud Run Admin API (v2). */
  datatype ServiceResource = ServiceResource(projectId: string, location: string, serviceId: string)

  /** The collection of projects in the Cloud Run Admin API (v2). */
  const ApiProjectsRoot: string := "https://run.googleapis.com/v2/projects/"

  /** The path below the projects root: `PROJECT/locations/REGION/services/SERVICE`. */
  function ResourcePath(projectId: string, region: string, serviceId: string): string
  {
    projectId + "/locations/" + region + "/services/" + serviceId
  }

  /** `https://run.googleapis.com/v2/projects/PROJECT/locations/REGION/services/SERVICE`. */
  function ApiUrl(projectId: string, region: string, serviceId: string): string
  {
    ApiProjectsRoot + ResourcePath(projectId, region, serviceId)
  }

  /** Reads an API URL back into the project, the location and the service it names. */
  function ParseApiUrl(url: string): (resource: Option<ServiceResource>)
    ensures resource.Some? ==> '/' !in resource.value.projectId && '/' !in resource.value.location
    ensures resource.Some? ==> '/' !in resource.value.serviceId
  {
    if |url| < |ApiProjectsRoot| || url[..|ApiProjectsRoot|] != ApiProjectsRoot then None
    else ParseResourcePath(url[|ApiProjectsRoot|..])
  }

  /** Reads `PROJECT/locations/REGION/services/SERVICE`: five `/`-separated pieces. */
  function ParseResourcePath(path: string): (resource: Option<ServiceResource>)
    ensures resource.Some? ==> '/' !in resource.value.projectId && '/' !in resource.value.location
    ensures resource.Some? ==> '/' !in resource.value.serviceId
  {
    var parts := Split(path, '/');
    if |parts| == 5 && parts[1] == "locations" && parts[3] == "services"
    then Some(ServiceResource(parts[0], parts[2], parts[4]))
    else None
  }

  /** Prefixing the projects root and reading back gives the path's reading. */
  lemma ApiUrlFraming(path: string)
    ensures ParseApiUrl(ApiProjectsRoot + path) == ParseResourcePath(path)
  {
    var url := ApiProjectsRoot + path;
    assert url[..|ApiProjectsRoot|] == ApiProjectsRoot;
    assert url[|ApiProjectsRoot|..] == path;
  }

  /** `services/SERVICE` splits into the word and the service identifier. */
  lemma SplitServicesSegment(serviceId: string)
    requires '/' !in serviceId
    ensures Split("services/" + serviceId, '/') == ["services", serviceId]
  {
    assert "services/" + serviceId == "services" + ['/'] + serviceId;
    SplitCons("services", serviceId, '/');
    SplitNoSeparator(serviceId, '/');
  }

  /** `REGION/services/SERVICE` splits into its three pieces. */
  lemma SplitRegionSegment(region: string, serviceId: string)
    requires '/' !in region && '/' !in serviceId
    ensures Split(region + "/services/" + serviceId, '/') == [region, "services", serviceId]
  {
    assert region + "/services/" + serviceId == region + ['/'] + ("services/" + serviceId);
    SplitCons(region, "services/" + serviceId, '/');
    SplitServicesSegment(serviceId);
  }

  /** `locations/REGION/services/SERVICE` splits into its four pieces. */
  lemma SplitLocationsSegment(region: string, serviceId: string)
    requires '/' !in region && '/' !in serviceId
    ensures Split("locations/" + region + "/services/" + serviceId, '/') == ["locations", region, "services", serviceId]
  {
    var rest := region + "/services/" + serviceId;
    assert "locations/" + region + "/services/" + serviceId == "locations" + ['/'] + rest;
    SplitCons("locations", rest, '/');
    SplitRegionSegment(region, serviceId);
  }

  /** A resource path determines the project, location and service it was built from. */
  lemma ResourcePathRoundTrip(projectId: string, region: string, serviceId: string)
    requires '/' !in projectId && '/' !in region && '/' !in serviceId
    ensures ParseResourcePath(ResourcePath(projectId, region, serviceId)) == Some(ServiceResource(projectId, region, serviceId))
  {
    var rest := "locations/" + region + "/services/" + serviceId;
    assert ResourcePath(projectId, region, serviceId) == projectId + ['/'] + rest;
    SplitCons(projectId, rest, '/');
    SplitLocationsSegment(region, serviceId);
  }

  /** An API URL names exactly the project, location and service it was built from. */
  lemma ApiUrlRoundTrip(projectId: string, region: string, serviceId: string)
    requires '/' !in projectId && '/' !in region && '/' !in serviceId
    ensures ParseApiUrl(ApiUrl(projectId, region, serviceId)) == Some(ServiceResource(projectId, region, serviceId))
  {
    ApiUrlFraming(ResourcePath(projectId, region, serviceId));
    ResourcePathRoundTrip(projectId, region, serviceId);
  }
}
