/**
 * The request handler of src/main.rs: the method gate, the client-address
 * requirement, building the response record from the lookup result, and the
 * exact-match dispatch on the path.
 */
module Handler {
  import opened Wrappers
  import opened Fastly
  import opened GeoIp

  /** The `Allow` header value sent with a 405. */
  const AllowValue: string := "GET, HEAD"

  const MethodNotAllowedText: string := "This method is not allowed\n"
  const NotFoundText: string := "The page you requested could not be found\n"
  const ClientIpErrorText: string := "Could not get Client IP"

  /** What the handler reads from the incoming request. */
  datatype Request = Request(verb: Method, path: string, clientIp: Option<IpAddr>)

  /**
   * The SDK services and fallible library steps the handler calls:
   * registering the panic log endpoint, `geo_lookup`, the HTML template's
   * `render` and the JSON encoding of `with_body_json`.
   */
  datatype Host = Host(
    panicEndpointReady: bool,
    geoLookup: IpAddr -> Option<Geo>,
    templateRenders: GeoIpResponse -> bool,
    jsonEncodes: GeoIpResponse -> bool)

  /** The content types the three body setters attach. */
  datatype ContentType = TextPlainUtf8 | TextHtmlUtf8 | ApplicationJson

  /** A response body: plain text, or the HTML page or JSON document rendered from a record. */
  datatype Body = PlainText(text: string) | HtmlPage(record: GeoIpResponse) | JsonDocument(record: GeoIpResponse)

  /** The parts of a `fastly::Response` the handler sets. */
  datatype Response = Response(status: nat, allow: Option<string>, contentType: ContentType, body: Body)

  /** The ways `main` returns `Err`. */
  datatype Error =
    | PanicEndpointUnavailable
    | ClientIpUnavailable(message: string)
    | TemplateRenderFailed
    | JsonEncodeFailed

  /** The methods the gate lets through. */
  predicate Admits(m: Method) {
    m == GET || m == HEAD
  }

  /** The lookup record a response was built from: each field read back from where the build put it. */
  function ToGeo(r: GeoIpResponse): Geo {
    Geo(
      r.isp.ispName, r.isp.ispAsn,
      r.geographic.city, r.geographic.country, r.geographic.continent, r.geographic.postalCode,
      r.geographic.latitude, r.geographic.longitude,
      r.connection.connectionType, r.connection.connectionSpeed,
      r.proxy.proxyType, r.proxy.proxyDescription)
  }

  /** A lookup hit whose every field holds the value the defaults use. */
  const DefaultGeo: Geo := Geo(
    NoInfo, 0, NoInfo, NoInfo, Continent.Other(UnknownLabel), NoInfo,
    ZeroCoordinate, ZeroCoordinate,
    ConnType.Other(UnknownLabel), ConnSpeed.Other(UnknownLabel),
    ProxyType.Unknown, ProxyDescription.Unknown)

  /** The 405 reply of the method gate. */
  function MethodNotAllowedResponse(): (resp: Response)
    ensures resp.status == METHOD_NOT_ALLOWED
    ensures resp.allow == Some(AllowValue)
    ensures resp.contentType == TextPlainUtf8 && resp.body == PlainText(MethodNotAllowedText)
  {
    Response(METHOD_NOT_ALLOWED, Some(AllowValue), TextPlainUtf8, PlainText(MethodNotAllowedText))
  }

  /** The 404 reply for any path other than "/" and "/json". */
  function NotFoundResponse(): (resp: Response)
    ensures resp.status == NOT_FOUND && resp.allow == None
    ensures resp.contentType == TextPlainUtf8 && resp.body == PlainText(NotFoundText)
  {
    Response(NOT_FOUND, None, TextPlainUtf8, PlainText(NotFoundText))
  }

  /**
   * The record for a client address and the result of looking it up: a hit
   * is copied field by field, a miss gives every sub-record its default.
   */
  function BuildResponse(ip: IpAddr, lookup: Option<Geo>): (r: GeoIpResponse)
    ensures r.ip == ip
    ensures lookup.Some? ==> ToGeo(r) == lookup.value
    ensures lookup.None? ==> IsDefaulted(r)
  {
    match lookup
    case Some(geo) =>
      GeoIpResponse(
        ip,
        IspInfo(geo.asName, geo.asNumber),
        GeographicInfo(geo.city, geo.countryName, geo.continent, geo.postalCode, geo.latitude, geo.longitude),
        ConnectionInfo(geo.connSpeed, geo.connType),
        ProxyInfo(geo.proxyType, geo.proxyDescription))
    case None =>
      GeoIpResponse(ip, DefaultIspInfo(), DefaultGeographicInfo(), DefaultConnectionInfo(), DefaultProxyInfo())
  }

  /**
   * The status the HTTP surface of the service promises for a method and a
   * path: 405 for a method other than GET and HEAD, 200 for "/" and "/json",
   * 404 otherwise.
   */
  function SurfaceStatus(m: Method, path: string): nat {
    if !Admits(m) then METHOD_NOT_ALLOWED
    else if path == "/" || path == "/json" then OK
    else NOT_FOUND
  }

  /** `main`: one request in, a response or an error out. */
  function Handle(req: Request, host: Host): (r: Result<Response, Error>)
    ensures !host.panicEndpointReady ==> r == Failure(PanicEndpointUnavailable)
    ensures host.panicEndpointReady && !Admits(req.verb) ==> r == Success(MethodNotAllowedResponse())
    ensures host.panicEndpointReady && Admits(req.verb) && req.clientIp.None? ==>
              r == Failure(ClientIpUnavailable(ClientIpErrorText))
    ensures r.Success? ==> r.value.status == SurfaceStatus(req.verb, req.path)
    ensures r.Success? && !r.value.body.PlainText? ==>
              req.clientIp.Some? &&
              r.value.body.record == BuildResponse(req.clientIp.value, host.geoLookup(req.clientIp.value))
  {
    if !host.panicEndpointReady then Failure(PanicEndpointUnavailable)
    else if !Admits(req.verb) then Success(MethodNotAllowedResponse())
    else
      match req.clientIp
      case None => Failure(ClientIpUnavailable(ClientIpErrorText))
      case Some(ip) =>
        var response := BuildResponse(ip, host.geoLookup(ip));
        if req.path == "/" then
          if host.templateRenders(response) then Success(Response(OK, None, TextHtmlUtf8, HtmlPage(response)))
          else Failure(TemplateRenderFailed)
        else if req.path == "/json" then
          if host.jsonEncodes(response) then Success(Response(OK, None, ApplicationJson, JsonDocument(response)))
          else Failure(JsonEncodeFailed)
        else Success(NotFoundResponse())
  }
}
