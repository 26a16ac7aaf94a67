/**
 * The stored state of a ConnectionInfo as a value: the three optional
 * endpoint URLs, the webhook settings, the internal Wi-Fi names, the cloud
 * preference and the active URL type; with the pure queries over it.
 */
module Endpoints {
  import opened Wrappers
  import opened Urls

  /** The three ways of reaching the server. */
  datatype URLType = Internal | RemoteUI | External
  {
    /** Whether choosing this type depends on the current Wi-Fi network. */
    predicate IsAffectedBySSID() {
      match this
      case Internal => true
      case RemoteUI => false
      case External => false
    }

    /** Whether choosing this type depends on the cloud preference. */
    predicate IsAffectedByCloud()
      ensures IsAffectedByCloud() <==> !IsAffectedBySSID()
    {
      match this
      case Internal => false
      case RemoteUI => true
      case External => true
    }
  }

  datatype Config = Config(
    internalURL: Option<Url>,
    externalURL: Option<Url>,
    remoteUIURL: Option<Url>,
    cloudhookURL: Option<Url>,
    webhookID: string,
    webhookSecret: Option<string>,
    internalSSIDs: Option<seq<string>>,
    useCloud: bool,
    activeURLType: URLType)

  /** `address(for:)`: the stored URL of the given type. */
  function Address(c: Config, t: URLType): (r: Option<Url>)
    ensures WithAddress(c, t, r) == c
  {
    match t
    case Internal => c.internalURL
    case External => c.externalURL
    case RemoteUI => c.remoteUIURL
  }

  /** The configuration with the URL of type `t` replaced by `a`. */
  function WithAddress(c: Config, t: URLType, a: Option<Url>): Config {
    match t
    case Internal => c.(internalURL := a)
    case External => c.(externalURL := a)
    case RemoteUI => c.(remoteUIURL := a)
  }

  /** Reading an address back after writing it gives what was written, and the other two are untouched. */
  lemma AddressOfWithAddress(c: Config, t: URLType, a: Option<Url>, s: URLType)
    ensures Address(WithAddress(c, t, a), s) == (if s == t then a else Address(c, s))
    ensures WithAddress(c, t, a).activeURLType == c.activeURLType
  {
  }

  /** `isOnInternalNetwork`: the current SSID is one of the internal SSIDs. */
  predicate OnInternalNetwork(internalSSIDs: Option<seq<string>>, currentSSID: Option<string>) {
    internalSSIDs.Some? && currentSSID.Some? && currentSSID.value in internalSSIDs.value
  }

  predicate OnNetwork(c: Config, currentSSID: Option<string>) {
    OnInternalNetwork(c.internalSSIDs, currentSSID)
  }

  /**
   * Without internal SSIDs, or without a current SSID, the device is never on
   * the internal network; otherwise it is on it iff the SSID occurs in the list.
   */
  lemma NotOnNetworkWithoutSSID(internalSSIDs: Option<seq<string>>, currentSSID: Option<string>)
    ensures internalSSIDs.None? ==> !OnInternalNetwork(internalSSIDs, currentSSID)
    ensures currentSSID.None? ==> !OnInternalNetwork(internalSSIDs, currentSSID)
    ensures OnInternalNetwork(internalSSIDs, currentSSID) <==>
      internalSSIDs.Some? && currentSSID.Some? &&
      exists i | 0 <= i < |internalSSIDs.value| :: internalSSIDs.value[i] == currentSSID.value
  {
  }

  /** `checkURLMatches(_:)`: `u` has the origin of one of the three endpoint URLs. */
  predicate CheckURLMatches(c: Config, u: Url)
    ensures (exists t :: Address(c, t).Some? && SameOrigin(u, Address(c, t))) ==> CheckURLMatches(c, u)
    ensures CheckURLMatches(c, u) && (u.scheme.Some? || u.host.Some? || u.port.Some?) ==>
      exists t :: Address(c, t).Some? && SameOrigin(u, Address(c, t))
  {
    assert Address(c, Internal) == c.internalURL && Address(c, External) == c.externalURL;
    assert Address(c, RemoteUI) == c.remoteUIURL;
    SameOrigin(u, c.internalURL) || SameOrigin(u, c.externalURL) || SameOrigin(u, c.remoteUIURL)
  }

  /** `getURLType(_:)`: the first of internal, external, remote UI whose origin `u` has. */
  function GetURLType(c: Config, u: Url): (r: Option<URLType>)
    ensures r.Some? <==> CheckURLMatches(c, u)
    ensures r.Some? ==> SameOrigin(u, Address(c, r.value))
    ensures r != Some(Internal) ==> !SameOrigin(u, c.internalURL)
    ensures r == Some(RemoteUI) ==> !SameOrigin(u, c.externalURL)
  {
    if SameOrigin(u, c.internalURL) then Some(Internal)
    else if SameOrigin(u, c.externalURL) then Some(External)
    else if SameOrigin(u, c.remoteUIURL) then Some(RemoteUI)
    else None
  }

  /**
   * A URL without scheme, host and port is reported as matching as soon as
   * one of the three endpoints is not configured.
   */
  lemma OriginlessURLMatchesUnconfigured(c: Config, u: Url, t: URLType)
    requires u.scheme.None? && u.host.None? && u.port.None?
    requires Address(c, t).None?
    ensures CheckURLMatches(c, u)
  {
  }
}
