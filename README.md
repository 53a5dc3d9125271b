# ifconfig-fastly: the request handler, in Dafny

ifconfig-fastly is a Fastly Compute service that tells a client what the edge
knows about its address: ISP and AS number, city, country, continent, postal
code, coordinates, connection speed and type, and proxy classification, as an
HTML page at `/` or a JSON document at `/json`.

This project models its core:

- `GeoIp` (geo_ip.dfy, src/lib.rs): the response record `GeoIPResponse`, its
  four sub-records, and the `Default` value of each sub-record (and of the
  unused `GeoIPUserAgentInfo`).
- `Handler` (handler.dfy, src/main.rs `main`): the method gate (405 with
  `Allow: GET, HEAD`), the client-address requirement, building the record
  from the lookup result (copied field by field on a hit, defaults on a miss),
  and exact-match dispatch on the path (`/` HTML, `/json` JSON, else 404).
- `HandlerProperties` (handler_properties.dfy): the lemmas stating what the
  handler promises over every request and every behaviour of the host.
- `Fastly` (fastly.dfy): the shapes of the SDK values the handler consumes:
  `IpAddr`, the geolocation enums, the `Geo` lookup record, `Method`, the
  status codes. `HttpLists` (http_lists.dfy): the comma-separated list syntax
  of HTTP field values (section 5.6.1 of RFC 9110), used to read the `Allow`
  value back. `Wrappers`: `Option` and `Result`.

Modelling choices:

- The SDK services are inputs. `Handle(req, host)` takes a `Request` (method,
  path, client address if the platform has one) and a `Host` holding whether
  the panic log endpoint could be registered, the `geo_lookup` function, and
  whether the HTML template renders / the JSON encoding succeeds for a record.
- A body is symbolic: `PlainText(text)`, or `HtmlPage(record)` /
  `JsonDocument(record)` standing for the page or document rendered from that
  record.
- `http::Method` is modelled by its token: the `http` crate parses "GET" to
  `Method::GET`, so two methods are equal exactly when their tokens are.
- Coordinates (`f64`) are kept as their IEEE 754 binary64 bit pattern; `0.0`
  is the all-zero pattern. The handler only copies them.
- The fixed variants of the SDK enums (`Africa`, `Broadband`, ...) are one
  `Named(variant)` case each; the handler never inspects them.

How the code treats lookups and failures:

- A hit is copied field by field as the SDK returns it; only a miss uses the
  defaults.
- A failed HTML template `render` or `with_body_json` is returned as `Err`;
  `Handle` returns the matching `Error` for each.
- Registering the panic log endpoint (src/main.rs:19) comes before the method
  check and its failure returns `Err` for any request, so the method-first
  lemmas require that it succeeded.

`HttpLists` holds helper definitions with no counterpart in the program: the
list syntax of section 5.6.1 of RFC 9110 by which a client reads the `Allow`
value back. The lemmas about the `Allow` value use it.

## Model

| member | source | states |
|---|---|---|
| `GeoIp.DefaultIspInfo` | src/lib.rs:29-36 | the default ISP name is the sentinel "No GeoIP Info Available" (non-empty) and the AS number is 0 |
| `GeoIp.DefaultGeographicInfo` | src/lib.rs:48-59 | city, country and postal code default to the sentinel; the continent is the `Other` variant carrying exactly "Unknown"; latitude and longitude are both the zero coordinate |
| `GeoIp.DefaultProxyInfo` | src/lib.rs:67-74 | proxy type and proxy description both default to their `Unknown` variants |
| `GeoIp.DefaultConnectionInfo` | src/lib.rs:82-89 | connection speed and connection type both default to `Other("Unknown")` |
| `GeoIp.DefaultUserAgentInfo` | src/lib.rs:96-102 | the default user agent is "Agent Not known." (non-empty) |
| `GeoIp.DefaultedHasNoEmptyText` | src/lib.rs:29-89 | a record whose sub-records are all defaults has no empty text field, `Other` labels included |
| `Handler.MethodNotAllowedResponse` | src/main.rs:25-29 | the gate's reply is status 405 with `Allow: GET, HEAD` and the plain-text body "This method is not allowed\n" |
| `Handler.NotFoundResponse` | src/main.rs:93-94 | the fallback reply is status 404, no `Allow`, plain-text body "The page you requested could not be found\n" |
| `Handler.BuildResponse` | src/main.rs:38-78 | the record always carries the client address; on a hit reading the record back gives exactly the lookup result; on a miss every sub-record is its default |
| `Handler.Handle` | src/main.rs:12-96 | a failed panic-endpoint registration is an error; otherwise a non-GET/HEAD method gets the 405 reply; a GET/HEAD without client address is the "Could not get Client IP" error; every response has the status the service's HTTP surface assigns to its method and path; a served page or document shows the record built from the client address and its lookup |
| `HandlerProperties.MethodGateComesFirst` | src/main.rs:22-34 | for a method other than GET or HEAD the outcome is the same 405 whatever the path, the client address (even absent) and the lookup service |
| `HandlerProperties.RejectedExactlyForOtherMethods` | src/main.rs:22-30 | status 405 is returned if and only if the method is neither GET nor HEAD |
| `HandlerProperties.AllowValueMembers` | src/main.rs:27 | read as an HTTP list, the `Allow` value holds exactly the tokens "GET" and "HEAD", in that order |
| `HandlerProperties.AllowListsExactlyAdmittedMethods` | src/main.rs:22-27 | a method is named in the `Allow` value if and only if the gate lets it through |
| `HandlerProperties.NoClientAddressIsAnError` | src/main.rs:32-34 | a GET or HEAD without client address yields the error and no response |
| `HandlerProperties.ServedRecordKeepsClientAddress` | src/main.rs:38-78 | a served record exists only with a client address, and its `ip` is that address, on a hit and on a miss |
| `HandlerProperties.HitIsCopiedVerbatim` | src/main.rs:39-64 | two hits give the same record if and only if the addresses and the lookup results are equal |
| `HandlerProperties.MissLooksLikeDefaultHit` | src/main.rs:65-77 | a miss gives the same record as a hit whose every field holds the default value |
| `HandlerProperties.MissServesDefaults` | src/main.rs:65-77 | when the lookup misses, the served record holds every default and no empty text |
| `HandlerProperties.HtmlExactlyForRoot` | src/main.rs:80-90 | the HTML page is served if and only if the path is exactly "/" (for an admitted method, a client address and a successful render); it has status 200 and the HTML content type |
| `HandlerProperties.JsonExactlyForJsonPath` | src/main.rs:91 | the JSON document is served if and only if the path is exactly "/json" (for an admitted method, a client address and a successful encoding); it has status 200 and the JSON content type |
| `HandlerProperties.OtherPathsNotFound` | src/main.rs:93-94 | every other path, "/json/" and "/status" included, gets the 404 reply |
| `HandlerProperties.StatusesAreKnown` | src/main.rs:26-93 | every response has status 200, 404 or 405 |
| `HandlerProperties.FailsOnlyForHostReasons` | src/main.rs:19-91 | the handler fails if and only if the panic endpoint is missing, an admitted request has no client address, or the render or encoding for the requested format fails |
| `HandlerProperties.PostToRootIsRefused` | src/main.rs:22-30 | a POST to "/" is the 405 reply, with or without client address |
| `HandlerProperties.StatusPageIsNotFound` | src/main.rs:93-94 | a GET of "/status" is a 404 with a plain-text body |
| `HandlerProperties.DefaultFallbackScenario` | src/main.rs:65-77 | a JSON request from 203.0.113.7 with no geolocation data shows the sentinel ISP name, AS number 0, continent `Other("Unknown")` and proxy type `Unknown` |
| `HandlerProperties.PopulatedScenario` | src/main.rs:39-64 | a JSON request from 198.51.100.23 located in Seattle, United States, AS 12345 shows exactly those values and that address |

## Left out

- Logging: `log_fastly::init_simple` and the `log::info`/`debug`/`error` calls have no effect on the result.
- The panic log endpoint: only whether its registration succeeds is modelled (a flag of `Host`).
- HTML rendering of the askama template (its file is not part of this model) and the serde JSON encoding: the bytes are not modelled, only which record is rendered and whether rendering fails. The JSON wire format of the SDK enums belongs to the SDK.
- The internals of `geo_lookup` and `get_client_ip_addr`: they are inputs.
- Floating point: coordinates are opaque bit patterns, only copied or set to `0.0`.
- `IpAddr` parsing and formatting: addresses are compared only for equality.
- The `Response` builder and `mime` constants: only status, the `Allow` header, the content type and the body are modelled.
- `HttpLists.ListMembers`: does not drop empty list elements (section 5.6.1 of RFC 9110 says to ignore them); the `Allow` value here has none.
