/**
 * The values the handler receives from the Fastly Compute SDK and the `http`
 * and `std::net` crates. Only their shape is modelled: the SDK's internals
 * (the geolocation database, the client-address lookup) are not visible.
 */
module Fastly {

  /** An IPv4 or IPv6 address (`std::net::IpAddr`), compared only for equality. */
  datatype IpAddr =
    | V4(a: bv8, b: bv8, c: bv8, d: bv8)
    | V6(s0: bv16, s1: bv16, s2: bv16, s3: bv16, s4: bv16, s5: bv16, s6: bv16, s7: bv16)

  /** Rust's `u32`. */
  newtype U32 = x: int | 0 <= x < 0x1_0000_0000

  /**
   * An `f64`, kept as its IEEE 754 binary64 bit pattern. The handler only
   * copies coordinates, so nothing but the pattern and the zero constant matters.
   */
  datatype Coordinate = Coordinate(bits: bv64)

  /** `0.0_f64`: positive zero is the all-zero bit pattern. */
  const ZeroCoordinate: Coordinate := Coordinate(0)

  /**
   * `fastly::geo::Continent`. `Other` carries a free-text label; `Named`
   * stands for the SDK's fixed variants (Africa, Asia, ...), which the handler
   * never inspects.
   */
  datatype Continent = Other(text: string) | Named(variant: nat)

  /** `fastly::geo::ConnSpeed`, with the same two kinds of variant. */
  datatype ConnSpeed = Other(text: string) | Named(variant: nat)

  /** `fastly::geo::ConnType`, with the same two kinds of variant. */
  datatype ConnType = Other(text: string) | Named(variant: nat)

  /** `fastly::geo::ProxyType`: an explicit `Unknown` and the SDK's other variants. */
  datatype ProxyType = Unknown | Named(variant: nat)

  /** `fastly::geo::ProxyDescription`: an explicit `Unknown` and the SDK's other variants. */
  datatype ProxyDescription = Unknown | Named(variant: nat)

  /** What `geo_lookup` returns on a hit: the accessors of `fastly::geo::Geo` the handler reads. */
  datatype Geo = Geo(
    asName: string,
    asNumber: U32,
    city: string,
    countryName: string,
    continent: Continent,
    postalCode: string,
    latitude: Coordinate,
    longitude: Coordinate,
    connType: ConnType,
    connSpeed: ConnSpeed,
    proxyType: ProxyType,
    proxyDescription: ProxyDescription)

  /**
   * `http::Method`. A method is identified by its token: the `http` crate
   * parses the token "GET" to `Method::GET`, so two methods are equal exactly
   * when their tokens are.
   */
  datatype Method = Method(token: string)

  const GET: Method := Method("GET")
  const HEAD: Method := Method("HEAD")
  const POST: Method := Method("POST")

  /** `http::StatusCode` values the handler uses. */
  const OK: nat := 200
  const NOT_FOUND: nat := 404
  const METHOD_NOT_ALLOWED: nat := 405
}
