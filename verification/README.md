# DASH content steering server: a Dafny model of its steering engine

The server answers MPEG-DASH clients with DASH Content Steering Manifests (DCSM,
Table 6.3.1 of the DASH-IF Content Steering specification) and rewrites origin MPDs
(ISO/IEC 23009-1) so that clients start steering. It keeps one live configuration: an
ordered table of service locations (CDN endpoints), the steering manifest URL
(`content_steering_server_url`) and the DCSM TTL (`dcsm_ttl`). An administrator
replaces it by POSTing to `content_steering_config`.

The model:

- `types.dfy` (`SteeringTypes`): the configuration, DCSM and MPD records, the initial
  values (`http://localhost:2210/dash.dcsm`, TTL 10, empty table) and the four
  rejection messages.
- `config_update.dfy` (`ConfigUpdate`): what a configuration update does, as a function
  `Update` on a `State` value, and the lemmas that say what it means. This covers the
  error order, the first-bad-entry rule, success, idempotence and the invariant that
  only checked values are installed.
- `mpd_augment.dfy` (`MpdAugment`): the ContentSteering element update, and the
  predicate `AugmentedFrom` that states what an augmented MPD is.
- `steering_engine.dfy` (`SteeringEngine`): the class `Engine`. Its fields `locations`,
  `reloadUrl` and `ttl` stand for the server's three package-level variables. Its
  methods follow the Go functions step by step:
  - the update saves, clears and re-appends the table, and restores it on error;
  - DCSM generation and MPD augmentation build their output with append loops.
  Each method is proved against the specification above. `BaseUrls` stands for
  `getBaseUrls`. A few client methods state the end-to-end properties.
- `request_path.dfy` (`RequestPath`): the handler's URL-path logic. It covers the last
  segment, the accept filter, the extension taken from the last dot, the route, and
  `resolveRemoteUrl`.

The server's intended behaviour is an all-or-nothing configuration update and a table
of service locations with unique ids. The code does neither of these, and the model
follows the code:

- **The update is not atomic.** The code writes the reload URL and TTL
  (steering_server.go:275-276) before the list is checked (steering_server.go:278).
  A rejected list therefore leaves the new URL and TTL next to the old table.
  `ConfigUpdate.UpdateRejectsEntry` and `SteeringEngine.RejectedListKeepsOldTable`
  state this.
- **Duplicate ids are accepted.** The code never compares ids, so the model accepts a
  table with repeated ids.

Parse failure and an empty table both give `nil` from `addContentSteeringInfoToMpd`, so
the model returns `None` for both; the handler cannot tell the two apart either.

## Model

| member | source | states |
|---|---|---|
| `ConfigUpdate.EntryError` | steering_server.go:245-256 | An entry is accepted exactly when its id and URI are both non-empty. The id is checked first: an entry with both fields empty is reported as "Empty ServiceLocation". |
| `ConfigUpdate.LocationsErrorEmptyIff` | steering_server.go:245-263 | `LocationsError` accepts a service-location list (message "") exactly when every entry has a non-empty id and URI. |
| `ConfigUpdate.LocationsErrorIsFirstBad` | steering_server.go:245-256 | `LocationsError` stops at the first bad entry. The message is that entry's: "Empty ServiceLocation" for an empty id, else "Empty ServiceLocationUri". |
| `ConfigUpdate.UpdateRejectsParameters` | steering_server.go:266-273 | An empty RELOAD_URI is rejected with "Empty RELOAD-URI config". Otherwise a TTL ≤ 0 is rejected with "Non-positive TTL value". In both cases the whole state is unchanged. |
| `ConfigUpdate.UpdateAccepts` | steering_server.go:241-279 | `Update` answers a valid configuration with "". The table becomes the submitted list in submitted order, and the reload URL and TTL become the submitted ones. |
| `ConfigUpdate.UpdateRejectsEntry` | steering_server.go:241-279 | Suppose the parameters are valid and entry k is the first bad one. Then the answer is entry k's message and the table keeps its old value. The reload URL and TTL still take the new values. |
| `ConfigUpdate.UpdateSucceedsIff` | steering_server.go:241-279 | `Update` answers "" exactly when RELOAD_URI is non-empty, TTL > 0 and every entry is well formed. |
| `ConfigUpdate.UpdateIdempotent` | steering_server.go:241-279 | Applying a configuration, valid or not, to the state it produced changes nothing. It also gives the same answer. |
| `ConfigUpdate.UpdatePreservesValid` | steering_server.go:241-279 | If the reload URL is non-empty, the TTL is positive and every table entry is well formed before an update, this holds after it too, whatever was submitted. |
| `MpdAugment.AddContentSteeringInfoSets` | steering_server.go:150-156 | `AddContentSteeringInfo` sets the element's value to the steering URL and defaultServiceLocation to the given id; queryBeforeStart becomes "true". |
| `MpdAugment.AddContentSteeringInfoKeepsOnlyProxy` | steering_server.go:150-156 | Two original elements give the same result exactly when their proxyServerURL agrees: nothing else of the old element survives. |
| `MpdAugment.AddContentSteeringInfoOverwrites` | steering_server.go:150-156 | A second setting of the steering information replaces the first completely. |
| `SteeringEngine.Engine.constructor` | steering_server.go:100-106 | The initial state is an empty table, reload URL `http://localhost:2210/dash.dcsm` and TTL 10. This state satisfies the invariant. |
| `SteeringEngine.Engine.UpdateServiceLocationPriority` | steering_server.go:241-264 | The answer is the first bad entry's message, or "". On "" the table equals the submitted list. Otherwise the saved table is restored. |
| `SteeringEngine.Engine.UpdateContentSteeringConfig` | steering_server.go:266-279 | The new state and the answer are those of `Update` applied to the old state. The invariant is preserved. |
| `SteeringEngine.Engine.GenerateDcsm` | steering_server.go:204-229 | No manifest exactly when the table is empty. Otherwise VERSION is 1 and TTL is the live TTL. RELOAD-URI is the reload URL + "?sessionId=" + the session id. SERVICE-LOCATION-PRIORITY is the table's ids in table order, one per entry. When the invariant holds, the TTL is positive and no id is empty. The method has no modifies clause, so it changes no state. |
| `SteeringEngine.Engine.AugmentMpd` | steering_server.go:158-188 | A parse failure gives nothing; otherwise an empty table gives nothing. Otherwise the BaseURLs are the original ones followed by one (id, uri) per table entry in order, N+M in all. ContentSteering gets the reload URL, the first entry's id and "true". Every other MPD field is unchanged. When the invariant holds, the ContentSteering value and default location are non-empty. No state is changed. |
| `SteeringEngine.FreshEngineHasNoManifest` | steering_server.go:219-224 | A server that has never been configured answers no DCSM request. |
| `SteeringEngine.ManifestIgnoresHints` | steering_server.go:201-229 | Two DCSM requests that differ only in the pathway and throughput hints get equal answers. |
| `SteeringEngine.MpdAndManifestAgree` | steering_server.go:158-229 | Suppose an MPD is produced. Then a DCSM is produced too, and the appended BaseURLs carry the DCSM's priority ids in the same order. The MPD's default location is the DCSM's first choice. |
| `SteeringEngine.UpdateThenManifest` | steering_server.go:241-279 | After an accepted update, the DCSM lists exactly the submitted ids in submitted order. Its TTL and reload URI are the submitted ones. |
| `SteeringEngine.RejectedListKeepsOldTable` | steering_server.go:266-279 | Suppose the parameters are valid but the list is rejected. Then the table is the old one, while the reload URL and TTL are the new ones. |
| `SteeringEngine.UpdateTwice` | steering_server.go:241-279 | Two identical updates give the same answer. The state after both equals the state after one. |
| `RequestPath.LastIndexOf` | steering_server.go:312-319 | The result is -1 or a position holding the character, and no later position holds it. This is strings.LastIndex. |
| `RequestPath.LastSegmentShape` | steering_server.go:312-320 | `LastSegment` returns a segment with no "/". After one trailing "/" is dropped, it is the path's longest suffix without "/". Only the empty path has no segment. |
| `RequestPath.Extension` | steering_server.go:372-373 | The extension is a suffix of the segment. It starts with "." and contains no other ".". |
| `RequestPath.ClassifyPanicsOnlyOnEmpty` | steering_server.go:312-320 | The slice `path[0:-1]` panics exactly when the path is empty. Any other path is classified by its last segment. |
| `RequestPath.ContainsIffOccurs` | steering_server.go:322-327 | The recursive `Contains` used by the filter is strings.Contains: it holds exactly when the pattern occurs at some position of the segment. |
| `RequestPath.ClassifyForbiddenIff` | steering_server.go:322-327 | `ClassifySegment` refuses a request (403) exactly when its segment is not the config endpoint and mentions neither ".dcsm" nor ".mpd". |
| `RequestPath.ClassifyByExtension` | steering_server.go:372-441 | `ClassifySegment` routes a segment to the MPD path exactly when it has a "." and its extension begins with ".mpd". It is routed to the DCSM path exactly when its extension begins with ".dcsm". Accepted segments that match neither get the final 400. |
| `RequestPath.ResolvedUrlKeepsSegment` | steering_server.go:122-124 | `ResolveRemoteUrl` puts the file name after the remote base URL. Suppose the base URL ends with "/" and the file name is non-empty and has no "/". Then the origin URL's last segment is that file name. |

## Left out

- HTTP transport is not modelled. This covers `main`, `http.ListenAndServe`, the
  handler's method and status branches, CORS, `respondMpd` and `respondDcsm`. The
  model stops at the route `Classify` returns.
- What happens after a handler panic (`Route.Panic`) is not modelled. The HTTP server
  recovers it and drops the connection, which is transport behaviour.
- `downloadRemoteMpd` is network I/O and is not modelled. A failed download reaches
  `addContentSteeringInfoToMpd` as nil bytes and fails to parse. The `None` input of
  `AugmentMpd` covers that case.
- The XML and JSON codecs (`xml.Unmarshal`, `xml.MarshalIndent`, `json.Marshal`,
  `json.Decode`) are library code. The parsed MPD is an `Option<Mpd>` input, and the
  DCSM and MPD results are records. Byte-level output is not modelled.
- Marshal errors are not modelled. On such an error the code logs it and returns nil
  (steering_server.go:190-198, 231-238), which the handler reports as a failure
  (steering_server.go:390 for an MPD, 427 for a DCSM).
- The MPD record holds only the fields the code decodes: seven root attributes and the
  BaseURL, ContentSteering and Period children, each Period as its inner XML only
  (steering_server.go:15-46). The codec drops every other root attribute and element,
  and every attribute of a Period, when the MPD is written back; the model does not
  capture this loss.
- Service-location URIs and the reload URI are never checked to be absolute URLs; the
  code only tests them for emptiness, and so does the model.
- `uuid.New()` and the query-string parsing that yields the session id, pathway and
  throughput are not modelled. These values are parameters of `GenerateDcsm`.
- `fmt.Println` logging is not modelled.
- Concurrency is not modelled. Go runs handlers in parallel over the unsynchronised
  globals. The model is sequential and claims no atomicity.
- The command-line override of `remoteBaseUrl` is process bootstrap. `ResolveRemoteUrl`
  takes the base URL as a parameter.
- Go's `int` is 64-bit, while `ttl` is an unbounded `int`. The value is only copied and
  compared with 0, so no overflow can arise.
- Strings are sequences of characters, while Go indexes strings by bytes. The
  characters searched for ("/", ".") are single bytes in UTF-8, so both cut a path
  into the same pieces.
