/**
 * The response record of the handler and the fallback value of each of its
 * sub-records (the `Default` impls of src/lib.rs).
 */
module GeoIp {
  import opened Fastly

  /** The sentinel every text field takes when nothing is known. */
  const NoInfo: string := "No GeoIP Info Available"

  /** The label the `Other` variants carry when nothing is known. */
  const UnknownLabel: string := "Unknown"

  /** The fallback user-agent text. */
  const UnknownAgent: string := "Agent Not known."

  datatype IspInfo = IspInfo(ispName: string, ispAsn: U32)

  datatype GeographicInfo = GeographicInfo(
    city: string,
    country: string,
    continent: Continent,
    postalCode: string,
    latitude: Coordinate,
    longitude: Coordinate)

  datatype ProxyInfo = ProxyInfo(proxyType: ProxyType, proxyDescription: ProxyDescription)

  datatype ConnectionInfo = ConnectionInfo(connectionSpeed: ConnSpeed, connectionType: ConnType)

  datatype UserAgentInfo = UserAgentInfo(userAgent: string)

  /** `GeoIPResponse`: the client's address and the four groups of facts about it. */
  datatype GeoIpResponse = GeoIpResponse(
    ip: IpAddr,
    isp: IspInfo,
    geographic: GeographicInfo,
    connection: ConnectionInfo,
    proxy: ProxyInfo)

  /** A text field is present: it holds at least one character. */
  predicate Present(s: string) {
    |s| > 0
  }

  /** The label of an `Other` continent is present (the SDK's named variants carry no text). */
  predicate ContinentTextPresent(c: Continent) {
    c.Other? ==> Present(c.text)
  }

  predicate SpeedTextPresent(c: ConnSpeed) {
    c.Other? ==> Present(c.text)
  }

  predicate TypeTextPresent(c: ConnType) {
    c.Other? ==> Present(c.text)
  }

  /** No text leaf of the record, labels of `Other` variants included, is empty. */
  predicate NoEmptyText(r: GeoIpResponse) {
    && Present(r.isp.ispName)
    && Present(r.geographic.city)
    && Present(r.geographic.country)
    && ContinentTextPresent(r.geographic.continent)
    && Present(r.geographic.postalCode)
    && SpeedTextPresent(r.connection.connectionSpeed)
    && TypeTextPresent(r.connection.connectionType)
  }

  /** `GeoIPISPInfo::default()`. */
  function DefaultIspInfo(): (d: IspInfo)
    ensures d.ispName == NoInfo && Present(d.ispName)
    ensures d.ispAsn == 0
  {
    IspInfo(NoInfo, 0)
  }

  /** `GeoIPGeographicInfo::default()`. */
  function DefaultGeographicInfo(): (d: GeographicInfo)
    ensures d.city == NoInfo && d.country == NoInfo && d.postalCode == NoInfo
    ensures d.continent.Other? && d.continent.text == UnknownLabel
    ensures d.latitude == ZeroCoordinate && d.longitude == ZeroCoordinate
  {
    GeographicInfo(NoInfo, NoInfo, Continent.Other(UnknownLabel), NoInfo, ZeroCoordinate, ZeroCoordinate)
  }

  /** `GeoIPProxyInfo::default()`. */
  function DefaultProxyInfo(): (d: ProxyInfo)
    ensures d.proxyType.Unknown? && d.proxyDescription.Unknown?
  {
    ProxyInfo(ProxyType.Unknown, ProxyDescription.Unknown)
  }

  /** `GeoIPConnectionInfo::default()`. */
  function DefaultConnectionInfo(): (d: ConnectionInfo)
    ensures d.connectionSpeed.Other? && d.connectionSpeed.text == UnknownLabel
    ensures d.connectionType.Other? && d.connectionType.text == UnknownLabel
  {
    ConnectionInfo(ConnSpeed.Other(UnknownLabel), ConnType.Other(UnknownLabel))
  }

  /** `GeoIPUserAgentInfo::default()`. */
  function DefaultUserAgentInfo(): (d: UserAgentInfo)
    ensures d.userAgent == UnknownAgent && Present(d.userAgent)
  {
    UserAgentInfo(UnknownAgent)
  }

  /** Every sub-record of `r` is its `Default` value. */
  predicate IsDefaulted(r: GeoIpResponse) {
    && r.isp == DefaultIspInfo()
    && r.geographic == DefaultGeographicInfo()
    && r.connection == DefaultConnectionInfo()
    && r.proxy == DefaultProxyInfo()
  }

  /** Every default text value is a fixed non-empty constant, so a defaulted record has no empty text. */
  lemma DefaultedHasNoEmptyText(r: GeoIpResponse)
    requires IsDefaulted(r)
    ensures NoEmptyText(r)
  {
  }
}
