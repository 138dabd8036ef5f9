/** Records exchanged by the content steering engine: the configuration it accepts,
    the DASH Content Steering Manifest (DCSM) it produces, and the parts of an
    MPEG-DASH Media Presentation Description (MPD, ISO/IEC 23009-1) it edits. */
module SteeringTypes {

  datatype Option<+T> = None | Some(value: T)

  /** One service location: a named content delivery endpoint. */
  datatype Entry = Entry(id: string, uri: string)

  /** A configuration update as decoded from the administrative JSON request. */
  datatype Config = Config(ttl: int, reloadUri: string, serviceLocations: seq<Entry>)

  /** The DCSM record of Table 6.3.1 of the DASH-IF Content Steering specification. */
  datatype Dcsm = Dcsm(version: int, ttl: int, reloadUri: string, serviceLocationPriority: seq<string>)

  /** A BaseURL element: `serviceLocation` attribute and text content. */
  datatype BaseUrl = BaseUrl(serviceLocation: string, value: string)

  /** The ContentSteering element: text content and its three attributes. */
  datatype ContentSteering = ContentSteering(
    value: string,
    defaultServiceLocation: string,
    queryBeforeStart: string,
    proxyServerUrl: string)

  /** A Period element, carried through as its raw inner XML. */
  datatype Period = Period(innerXml: string)

  /** The MPD root element with the attributes and children the server decodes. */
  datatype Mpd = Mpd(
    mediaPresentationDuration: string,
    minBufferTime: string,
    profiles: string,
    mpdType: string,
    xmlns: string,
    xmlnsXsi: string,
    xsiSchemaLocation: string,
    baseUrls: seq<BaseUrl>,
    contentSteering: ContentSteering,
    periods: seq<Period>)

  const DcsmVersion := 1
  const SessionIdQueryParam := "sessionId"

  /** Initial steering parameters of a freshly started server (localhost:2210). */
  const DefaultReloadUrl := "http://localhost:2210/dash.dcsm"
  const DefaultTtl := 10

  /** The messages returned by a rejected configuration update. */
  const EmptyReloadUriMsg := "Empty RELOAD-URI config"
  const NonPositiveTtlMsg := "Non-positive TTL value"
  const EmptyIdMsg := "Empty ServiceLocation"
  const EmptyUriMsg := "Empty ServiceLocationUri"
}
