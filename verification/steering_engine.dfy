/** The steering server's live configuration and the three operations that read or
    write it. The Go server keeps this state in three package-level variables
    (`serviceLocationMap`, `content_steering_server_url`, `dcsm_ttl`); here they are
    the fields of one `Engine` object. */
module SteeringEngine {
  import opened SteeringTypes
  import opened ConfigUpdate
  import opened MpdAugment

  class Engine {
    /** serviceLocationMap: the service-location table, in priority order. */
    var locations: seq<Entry>
    /** content_steering_server_url: the steering manifest endpoint. */
    var reloadUrl: string
    /** dcsm_ttl: seconds a client may keep a DCSM. */
    var ttl: int

    /** The live configuration as a value. */
    function Snapshot(): State
      reads this
    {
      State(locations, reloadUrl, ttl)
    }

    ghost predicate Valid()
      reads this
    {
      ValidState(Snapshot())
    }

    /** The package-level initial values: no table yet, default reload URL and TTL. */
    constructor ()
      ensures Snapshot() == InitialState
      ensures Valid()
    {
      locations := [];
      reloadUrl := DefaultReloadUrl;
      ttl := DefaultTtl;
    }

    /** getBaseUrls: the table the readers work from. */
    function BaseUrls(): seq<Entry>
      reads this
    {
      locations
    }

    /** updateDefaultServiceLocationPriority: save the table, clear it, append the submitted
        entries one by one and put the saved table back at the first bad entry. */
    method UpdateServiceLocationPriority(c: Config) returns (msg: string)
      modifies this`locations
      ensures msg == LocationsError(c.serviceLocations)
      ensures locations == if msg == "" then c.serviceLocations else old(locations)
    {
      var saved := locations;
      locations := [];
      var sl := c.serviceLocations;
      var i := 0;
      while i < |sl|
        invariant 0 <= i <= |sl|
        invariant locations == sl[..i]
        invariant LocationsError(sl) == LocationsError(sl[i..])
      {
        if sl[i].id == "" {
          locations := saved;
          return EmptyIdMsg;
        }
        if sl[i].uri == "" {
          locations := saved;
          return EmptyUriMsg;
        }
        assert sl[i..][1..] == sl[i + 1..];
        locations := locations + [sl[i]];
        i := i + 1;
      }
      assert sl[..i] == sl;
      msg := "";
    }

    /** updateDefaultContentSteeringConfig: reject an empty reload URI or a non-positive TTL
        without touching anything; otherwise write the reload URL and TTL, then update the
        table. The new state and the message are those of `Update`. */
    method UpdateContentSteeringConfig(c: Config) returns (msg: string)
      modifies this
      ensures (Snapshot(), msg) == Update(old(Snapshot()), c)
      ensures old(Valid()) ==> Valid()
    {
      ghost var before := Snapshot();
      if |c.reloadUri| == 0 {
        return EmptyReloadUriMsg;
      }
      if c.ttl <= 0 {
        return NonPositiveTtlMsg;
      }
      reloadUrl := c.reloadUri;
      ttl := c.ttl;
      msg := UpdateServiceLocationPriority(c);
      if ValidState(before) {
        UpdatePreservesValid(before, c);
      }
    }

    /** generateDcsm: no manifest while the table is empty; otherwise VERSION 1, the live TTL,
        the reload URL carrying the session id, and the table's ids in table order. The
        pathway and throughput hints are accepted and not used. Reads the state only. */
    method GenerateDcsm(sessionId: string, pathway: string, throughput: string) returns (r: Option<Dcsm>)
      ensures r.None? <==> locations == []
      ensures r.Some? ==>
        && r.value.version == DcsmVersion
        && r.value.ttl == ttl
        && r.value.reloadUri == reloadUrl + "?" + SessionIdQueryParam + "=" + sessionId
        && |r.value.serviceLocationPriority| == |locations|
        && forall i :: 0 <= i < |locations| ==> r.value.serviceLocationPriority[i] == locations[i].id
      ensures Valid() && r.Some? ==>
        && r.value.ttl > 0
        && forall i :: 0 <= i < |r.value.serviceLocationPriority| ==> r.value.serviceLocationPriority[i] != ""
    {
      var reloadUri := reloadUrl + "?" + SessionIdQueryParam + "=" + sessionId;
      var baseUrls := BaseUrls();
      if |baseUrls| == 0 {
        return None;
      }
      var priority: seq<string> := [];
      for i := 0 to |baseUrls|
        invariant |priority| == i
        invariant forall j :: 0 <= j < i ==> priority[j] == baseUrls[j].id
      {
        priority := priority + [baseUrls[i].id];
      }
      r := Some(Dcsm(DcsmVersion, ttl, reloadUri, priority));
    }

    /** addContentSteeringInfoToMpd: a failed parse gives nothing, then an empty table gives
        nothing; otherwise one BaseURL per table entry is appended in table order and the
        ContentSteering element names the live reload URL and the first entry. Reads the
        state only. */
    method AugmentMpd(parsed: Option<Mpd>) returns (r: Option<Mpd>)
      ensures parsed.None? ==> r.None?
      ensures parsed.Some? ==> (r.None? <==> locations == [])
      ensures r.Some? ==> AugmentedFrom(parsed.value, r.value, locations, reloadUrl)
      ensures Valid() && r.Some? ==>
        && r.value.contentSteering.value != ""
        && r.value.contentSteering.defaultServiceLocation != ""
    {
      if parsed.None? {
        return None;
      }
      var mpd := parsed.value;
      var baseUrls := BaseUrls();
      if |baseUrls| == 0 {
        return None;
      }
      var defaultServiceLocation := baseUrls[0].id;
      for i := 0 to |baseUrls|
        invariant mpd == parsed.value.(baseUrls := mpd.baseUrls)
        invariant |mpd.baseUrls| == |parsed.value.baseUrls| + i
        invariant mpd.baseUrls[..|parsed.value.baseUrls|] == parsed.value.baseUrls
        invariant forall j :: 0 <= j < i ==>
          mpd.baseUrls[|parsed.value.baseUrls| + j] == BaseUrl(baseUrls[j].id, baseUrls[j].uri)
      {
        mpd := mpd.(baseUrls := mpd.baseUrls + [BaseUrl(baseUrls[i].id, baseUrls[i].uri)]);
      }
      mpd := mpd.(contentSteering := AddContentSteeringInfo(mpd.contentSteering, reloadUrl, defaultServiceLocation));
      r := Some(mpd);
    }
  }

  /** A server that has not been configured answers no DCSM request. */
  method FreshEngineHasNoManifest(sessionId: string) returns (r: Option<Dcsm>)
    ensures r.None?
  {
    var e := new Engine();
    r := e.GenerateDcsm(sessionId, "", "");
  }

  /** The pathway and throughput hints do not change the manifest. */
  method ManifestIgnoresHints(e: Engine, sessionId: string, pathway1: string, throughput1: string,
                              pathway2: string, throughput2: string)
    returns (r1: Option<Dcsm>, r2: Option<Dcsm>)
    ensures r1 == r2
  {
    r1 := e.GenerateDcsm(sessionId, pathway1, throughput1);
    r2 := e.GenerateDcsm(sessionId, pathway2, throughput2);
    if r1.Some? {
      assert r1.value.serviceLocationPriority == r2.value.serviceLocationPriority;
    }
  }

  /** A client steered by the augmented MPD and by the DCSM sees the same service
      locations in the same order, and the MPD's default location is the DCSM's first
      choice. */
  method MpdAndManifestAgree(e: Engine, parsed: Option<Mpd>, sessionId: string)
    returns (m: Option<Mpd>, d: Option<Dcsm>)
    ensures m.Some? ==> parsed.Some? && d.Some? && |d.value.serviceLocationPriority| > 0
    ensures m.Some? && parsed.Some? && d.Some? && |d.value.serviceLocationPriority| > 0 ==>
      var n := |parsed.value.baseUrls|;
      && |m.value.baseUrls| == n + |d.value.serviceLocationPriority|
      && (forall i :: 0 <= i < |d.value.serviceLocationPriority| ==>
            m.value.baseUrls[n + i].serviceLocation == d.value.serviceLocationPriority[i])
      && m.value.contentSteering.defaultServiceLocation == d.value.serviceLocationPriority[0]
  {
    m := e.AugmentMpd(parsed);
    d := e.GenerateDcsm(sessionId, "", "");
  }

  /** After an accepted update, the manifest lists exactly the submitted ids in submitted
      order, with the submitted TTL and reload URI. */
  method UpdateThenManifest(e: Engine, c: Config, sessionId: string) returns (msg: string, r: Option<Dcsm>)
    modifies e
    ensures msg == "" ==> (r.None? <==> c.serviceLocations == [])
    ensures msg == "" && r.Some? ==>
      && r.value.ttl == c.ttl
      && r.value.reloadUri == c.reloadUri + "?" + SessionIdQueryParam + "=" + sessionId
      && |r.value.serviceLocationPriority| == |c.serviceLocations|
      && forall i :: 0 <= i < |c.serviceLocations| ==>
           r.value.serviceLocationPriority[i] == c.serviceLocations[i].id
  {
    msg := e.UpdateContentSteeringConfig(c);
    r := e.GenerateDcsm(sessionId, "", "");
  }

  /** A rejected list leaves the old table in place while the reload URI and TTL are the
      new ones: a reader sees new parameters next to the old table. */
  method RejectedListKeepsOldTable(e: Engine, c: Config) returns (msg: string)
    modifies e
    ensures c.reloadUri != "" && c.ttl > 0 && msg != "" ==>
      e.locations == old(e.locations) && e.reloadUrl == c.reloadUri && e.ttl == c.ttl
  {
    msg := e.UpdateContentSteeringConfig(c);
  }

  /** Repeating an update neither changes the state further nor the answer. */
  method UpdateTwice(e: Engine, c: Config) returns (msg1: string, msg2: string)
    modifies e
    ensures msg1 == msg2
    ensures e.Snapshot() == Update(old(e.Snapshot()), c).0
  {
    msg1 := e.UpdateContentSteeringConfig(c);
    msg2 := e.UpdateContentSteeringConfig(c);
    UpdateIdempotent(old(e.Snapshot()), c);
  }
}
