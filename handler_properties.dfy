/** What the handler of src/main.rs promises, over all requests and all host behaviours. */
module HandlerProperties {
  import opened Wrappers
  import opened Fastly
  import opened GeoIp
  import opened Handler
  import HttpLists

  /** The record served for a request whose client address is `ip`. */
  function RecordFor(ip: IpAddr, host: Host): GeoIpResponse {
    BuildResponse(ip, host.geoLookup(ip))
  }

  // ---- The method gate -------------------------------------------------------

  /**
   * Once the panic endpoint is registered, a method other than GET or HEAD gets
   * the same 405 whatever the path, the client address (present or not) and
   * the lookup service.
   */
  lemma MethodGateComesFirst(req1: Request, host1: Host, req2: Request, host2: Host)
    requires host1.panicEndpointReady && host2.panicEndpointReady
    requires req1.verb == req2.verb && !Admits(req1.verb)
    ensures Handle(req1, host1) == Handle(req2, host2)
    ensures Handle(req1, host1).Success?
    ensures Handle(req1, host1).value.status == METHOD_NOT_ALLOWED
    ensures Handle(req1, host1).value.allow == Some(AllowValue)
    ensures Handle(req1, host1).value.body == PlainText(MethodNotAllowedText)
  {
  }

  /** A 405 is sent exactly when the method is neither GET nor HEAD. */
  lemma RejectedExactlyForOtherMethods(req: Request, host: Host)
    requires host.panicEndpointReady
    ensures (Handle(req, host).Success? && Handle(req, host).value.status == METHOD_NOT_ALLOWED) <==> !Admits(req.verb)
  {
  }

  /** The `Allow` value splits at its one comma into "GET" and " HEAD". */
  lemma AllowValueParts()
    ensures HttpLists.SplitAtCommas(AllowValue) == ["GET", " HEAD"]
  {
    assert AllowValue == "GET" + "," + " HEAD";
    HttpLists.SplitAtFirstComma("GET", " HEAD");
    HttpLists.SplitCommaFree(" HEAD");
  }

  /** Trimming the two parts leaves the bare tokens. */
  lemma TrimmedAllowParts()
    ensures HttpLists.TrimOws("GET") == "GET"
    ensures HttpLists.TrimOws(" HEAD") == "HEAD"
  {
  }

  /** Read as an HTTP list, the `Allow` value holds the two tokens "GET" and "HEAD". */
  lemma AllowValueMembers()
    ensures HttpLists.ListMembers(AllowValue) == ["GET", "HEAD"]
  {
    AllowValueParts();
    TrimmedAllowParts();
  }

  /** The `Allow` value names exactly the methods the gate lets through. */
  lemma AllowListsExactlyAdmittedMethods(m: Method)
    ensures m.token in HttpLists.ListMembers(AllowValue) <==> Admits(m)
  {
    AllowValueMembers();
  }

  // ---- The client address -----------------------------------------------------

  /** A GET or HEAD without a client address fails before any record is built. */
  lemma NoClientAddressIsAnError(req: Request, host: Host)
    requires host.panicEndpointReady && Admits(req.verb) && req.clientIp.None?
    ensures Handle(req, host) == Failure(ClientIpUnavailable(ClientIpErrorText))
  {
  }

  /** Every record that is served carries the client's own address. */
  lemma ServedRecordKeepsClientAddress(req: Request, host: Host)
    requires Handle(req, host).Success? && !Handle(req, host).value.body.PlainText?
    ensures req.clientIp.Some? && Handle(req, host).value.body.record.ip == req.clientIp.value
  {
  }

  // ---- Building the record ------------------------------------------------------

  /** Distinct hits give distinct records (the copy itself is the `ToGeo` postcondition of `BuildResponse`). */
  lemma HitIsCopiedVerbatim(ip1: IpAddr, g1: Geo, ip2: IpAddr, g2: Geo)
    ensures BuildResponse(ip1, Some(g1)) == BuildResponse(ip2, Some(g2)) <==> ip1 == ip2 && g1 == g2
  {
  }

  /** A miss gives the record of a hit whose every field holds the default value. */
  lemma MissLooksLikeDefaultHit(ip: IpAddr)
    ensures BuildResponse(ip, None) == BuildResponse(ip, Some(DefaultGeo))
    ensures ToGeo(BuildResponse(ip, None)) == DefaultGeo
  {
  }

  /** On a miss the served record holds the defaults and no empty text. */
  lemma MissServesDefaults(req: Request, host: Host)
    requires Handle(req, host).Success? && !Handle(req, host).value.body.PlainText?
    requires req.clientIp.Some? && host.geoLookup(req.clientIp.value).None?
    ensures IsDefaulted(Handle(req, host).value.body.record)
    ensures NoEmptyText(Handle(req, host).value.body.record)
  {
    DefaultedHasNoEmptyText(Handle(req, host).value.body.record);
  }

  // ---- Path dispatch --------------------------------------------------------------

  /** The HTML page is served exactly for "/" (and a render that succeeds). */
  lemma HtmlExactlyForRoot(req: Request, host: Host)
    ensures (Handle(req, host).Success? && Handle(req, host).value.body.HtmlPage?) <==>
            && host.panicEndpointReady && Admits(req.verb) && req.clientIp.Some?
            && req.path == "/" && host.templateRenders(RecordFor(req.clientIp.value, host))
    ensures Handle(req, host).Success? && Handle(req, host).value.body.HtmlPage? ==>
            Handle(req, host).value.status == OK && Handle(req, host).value.contentType == TextHtmlUtf8
  {
  }

  /** The JSON document is served exactly for "/json" (and an encoding that succeeds). */
  lemma JsonExactlyForJsonPath(req: Request, host: Host)
    ensures (Handle(req, host).Success? && Handle(req, host).value.body.JsonDocument?) <==>
            && host.panicEndpointReady && Admits(req.verb) && req.clientIp.Some?
            && req.path == "/json" && host.jsonEncodes(RecordFor(req.clientIp.value, host))
    ensures Handle(req, host).Success? && Handle(req, host).value.body.JsonDocument? ==>
            Handle(req, host).value.status == OK && Handle(req, host).value.contentType == ApplicationJson
  {
  }

  /** Any other path, "/json/" and "/status" included, gets the 404 reply. */
  lemma OtherPathsNotFound(req: Request, host: Host)
    requires host.panicEndpointReady && Admits(req.verb) && req.clientIp.Some?
    requires req.path != "/" && req.path != "/json"
    ensures Handle(req, host) == Success(NotFoundResponse())
  {
  }

  /** Every response has status 200, 404 or 405. */
  lemma StatusesAreKnown(req: Request, host: Host)
    requires Handle(req, host).Success?
    ensures Handle(req, host).value.status in {OK, NOT_FOUND, METHOD_NOT_ALLOWED}
  {
  }

  /** The handler fails only for a missing panic endpoint, a missing client address, a failed render or a failed JSON encoding. */
  lemma FailsOnlyForHostReasons(req: Request, host: Host)
    ensures Handle(req, host).Failure? <==>
            || !host.panicEndpointReady
            || (Admits(req.verb) && req.clientIp.None?)
            || (Admits(req.verb) && req.clientIp.Some? && req.path == "/"
                && !host.templateRenders(RecordFor(req.clientIp.value, host)))
            || (Admits(req.verb) && req.clientIp.Some? && req.path == "/json"
                && !host.jsonEncodes(RecordFor(req.clientIp.value, host)))
  {
  }

  // ---- Scenarios ----------------------------------------------------------------------

  /** A POST to "/" is refused with 405 and `Allow: GET, HEAD`. */
  lemma PostToRootIsRefused(ip: Option<IpAddr>, host: Host)
    requires host.panicEndpointReady
    ensures Handle(Request(POST, "/", ip), host) == Success(MethodNotAllowedResponse())
  {
  }

  /** A GET of "/status" from a known address gets 404 with a plain-text body. */
  lemma StatusPageIsNotFound(ip: IpAddr, host: Host)
    requires host.panicEndpointReady
    ensures Handle(Request(GET, "/status", Some(ip)), host).Success?
    ensures Handle(Request(GET, "/status", Some(ip)), host).value.status == NOT_FOUND
    ensures Handle(Request(GET, "/status", Some(ip)), host).value.body.PlainText?
  {
  }

  /** 203.0.113.7 with no geolocation data: the JSON document carries the defaults. */
  lemma DefaultFallbackScenario(host: Host)
    requires host.panicEndpointReady
    requires host.geoLookup(V4(203, 0, 113, 7)).None?
    requires host.jsonEncodes(RecordFor(V4(203, 0, 113, 7), host))
    ensures var r := Handle(Request(GET, "/json", Some(V4(203, 0, 113, 7))), host);
            && r.Success? && r.value.body.JsonDocument?
            && r.value.body.record.isp.ispName == "No GeoIP Info Available"
            && r.value.body.record.isp.ispAsn == 0
            && r.value.body.record.geographic.continent == Continent.Other("Unknown")
            && r.value.body.record.proxy.proxyType == ProxyType.Unknown
  {
  }

  /** 198.51.100.23 located in Seattle: the JSON document carries the lookup's values. */
  lemma PopulatedScenario(host: Host, g: Geo)
    requires host.panicEndpointReady
    requires host.geoLookup(V4(198, 51, 100, 23)) == Some(g)
    requires g.city == "Seattle" && g.countryName == "United States" && g.asNumber == 12345
    requires host.jsonEncodes(RecordFor(V4(198, 51, 100, 23), host))
    ensures var r := Handle(Request(GET, "/json", Some(V4(198, 51, 100, 23))), host);
            && r.Success? && r.value.body.JsonDocument?
            && r.value.body.record.ip == V4(198, 51, 100, 23)
            && r.value.body.record.geographic.city == "Seattle"
            && r.value.body.record.geographic.country == "United States"
            && r.value.body.record.isp.ispAsn == 12345
  {
  }
}
