/**
 * The instance-region string of the metadata service, of the form
 * `projects/PROJECT-NUMBER/regions/REGION`, and how the provisioner reads the
 * region and the project number out of it (server.js, getGCPProjectNumberAndRegion).
 */
module Region {
  import opened Wrappers
  import opened Strings

  /**
   * What the parser yields. `projectNumber` is `None` where JavaScript indexes
   * the split array below zero and reads `undefined`.
   */
  datatype RegionInfo = RegionInfo(region: string, projectNumber: Option<string>)

  /**
   * Split the fetched text on `/`; the region is the last piece, the project
   * number the third piece from the end.
   *
   * The region is the longest `/`-free suffix of the text, and a project
   * number is read exactly when the text holds at least two `/`.
   */
  function ParseRegion(text: string): (info: RegionInfo)
    ensures '/' !in info.region
    ensures |info.region| <= |text| && text[|text| - |info.region|..] == info.region
    ensures |info.region| == |text| || text[|text| - |info.region| - 1] == '/'
    ensures info.projectNumber.Some? <==> Count(text, '/') >= 2
    ensures info.projectNumber.Some? ==> '/' !in info.projectNumber.value
  {
    var parts := Split(text, '/');
    SplitLast(text, '/');
    SplitCount(text, '/');
    RegionInfo(parts[|parts| - 1], if |parts| >= 3 then Some(parts[|parts| - 3]) else None)
  }

  /**
   * For any text made of at least three `/`-free segments, whatever the
   * leading segments are, the parser reads the last segment as the region and
   * the third from the end as the project number.
   */
  lemma ParseJoined(parts: seq<string>)
    requires |parts| >= 3
    requires forall i :: 0 <= i < |parts| ==> '/' !in parts[i]
    ensures ParseRegion(Join(parts, '/')) == RegionInfo(parts[|parts| - 1], Some(parts[|parts| - 3]))
  {
    SplitJoin(parts, '/');
    ParsePieces(Join(parts, '/'), parts);
  }

  /** The parser's reading in terms of the pieces the text splits into. */
  lemma ParsePieces(text: string, pieces: seq<string>)
    requires Split(text, '/') == pieces
    ensures |pieces| >= 1
    ensures ParseRegion(text)
         == RegionInfo(pieces[|pieces| - 1], if |pieces| >= 3 then Some(pieces[|pieces| - 3]) else None)
  {
  }

  /** The documented form `projects/N/regions/R` gives back `N` and `R`. */
  lemma ParseDocumentedForm(number: string, region: string)
    requires '/' !in number && '/' !in region
    ensures ParseRegion("projects/" + number + "/regions/" + region) == RegionInfo(region, Some(number))
  {
    var parts := ["projects", number, "regions", region];
    assert Join(parts, '/') == "projects/" + number + "/regions/" + region by {
      assert Join(parts[3..], '/') == region;
      assert Join(parts[2..], '/') == "regions/" + region;
      assert Join(parts[1..], '/') == number + "/regions/" + region;
    }
    forall k | 0 <= k < |parts| ensures '/' !in parts[k] {
      if k == 0 {
        assert parts[k] == "projects";
      } else if k == 1 {
        assert parts[k] == number;
      } else if k == 2 {
        assert parts[k] == "regions";
      } else {
        assert parts[k] == region;
      }
    }
    ParseJoined(parts);
  }
}
