/** The element-level edits the engine makes to an MPD. */
module MpdAugment {
  import opened SteeringTypes

  /** addContentSteeringInfo: point the ContentSteering element at the steering server,
      name the default service location and ask clients to fetch a DCSM before the first
      segment. Only the proxy server URL of the original element survives. */
  function AddContentSteeringInfo(cs: ContentSteering, steeringServerUrl: string, defaultServiceLocation: string)
    : ContentSteering
  {
    cs.(value := steeringServerUrl, defaultServiceLocation := defaultServiceLocation, queryBeforeStart := "true")
  }

  /** Of the element the MPD already had, only the proxy server URL shows in the result:
      two elements give the same result exactly when their proxy server URLs agree. */
  lemma AddContentSteeringInfoKeepsOnlyProxy(cs1: ContentSteering, cs2: ContentSteering, url: string, loc: string)
    ensures AddContentSteeringInfo(cs1, url, loc) == AddContentSteeringInfo(cs2, url, loc)
        <==> cs1.proxyServerUrl == cs2.proxyServerUrl
  {
  }

  /** The steering information is always set, and queryBeforeStart is always "true". */
  lemma AddContentSteeringInfoSets(cs: ContentSteering, url: string, loc: string)
    ensures var r := AddContentSteeringInfo(cs, url, loc);
      r.value == url && r.defaultServiceLocation == loc && r.queryBeforeStart == "true"
  {
  }

  /** Setting the steering information twice is the same as setting it once with the
      second call's values: the element keeps no trace of earlier settings. */
  lemma AddContentSteeringInfoOverwrites(cs: ContentSteering, url1: string, loc1: string, url2: string, loc2: string)
    ensures AddContentSteeringInfo(AddContentSteeringInfo(cs, url1, loc1), url2, loc2)
         == AddContentSteeringInfo(cs, url2, loc2)
  {
  }

  /** The MPD `out` is `orig` with `locations` appended as BaseURLs, in order, and the
      ContentSteering element set to `steeringServerUrl` and the first location; every
      other attribute and child of the root is unchanged. */
  predicate AugmentedFrom(orig: Mpd, out: Mpd, locations: seq<Entry>, steeringServerUrl: string)
  {
    && |locations| > 0
    && |out.baseUrls| == |orig.baseUrls| + |locations|
    && out.baseUrls[..|orig.baseUrls|] == orig.baseUrls
    && (forall i :: 0 <= i < |locations| ==> out.baseUrls[|orig.baseUrls| + i] == BaseUrl(locations[i].id, locations[i].uri))
    && out.contentSteering == ContentSteering(steeringServerUrl, locations[0].id, "true", orig.contentSteering.proxyServerUrl)
    && out == orig.(baseUrls := out.baseUrls, contentSteering := out.contentSteering)
  }
}
