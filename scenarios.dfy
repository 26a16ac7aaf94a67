/** Concrete configurations worked through the model. */
module Scenarios {
  import opened Wrappers
  import opened Urls
  import opened Endpoints
  import opened Selection
  import opened Transitions
  import opened Failover

  const Home := Url(Some("http"), Some("10.0.0.5"), Some(8123), "/")
  const Public := Url(Some("https"), Some("example.duckdns.org"), None, "/")
  const Relay := Url(Some("https"), Some("rl.example.com"), None, "/")

  function HomeConfig(ssid: Option<string>): Config {
    Config(Some(Home), Some(Public), None, None, "hook", None, Some(["HomeWifi"]), false,
           InitialActiveType(Some(Home), Some(["HomeWifi"]), false, None, ssid))
  }

  /** On the home Wi-Fi the internal URL is chosen and returned without its trailing slash. */
  lemma AtHome()
    ensures HomeConfig(Some("HomeWifi")).activeURLType == Internal
    ensures Resolve(HomeConfig(Some("HomeWifi")), Some("HomeWifi")).result == Ok(Home.(path := ""))
  {
  }

  /**
   * Configured at home, then read on another Wi-Fi: the getter escalates
   * from the internal type to the external one (one switch) and returns the
   * external URL without its trailing slash.
   */
  lemma AwayFromHome()
    ensures HomeConfig(Some("HomeWifi")).activeURLType == Internal
    ensures var l := Resolve(HomeConfig(Some("HomeWifi")), Some("CoffeeShopWifi"));
      l.active == External && l.switches == 1 && l.result == Ok(Public.(path := ""))
  {
  }

  /**
   * Set up away from home with only an internal URL, `init` picks the
   * external type; back on the home Wi-Fi every read still fails, because
   * the external branch, once its own URL is absent, never looks at the
   * internal URL.
   */
  lemma BackHomeStillFails()
    ensures var c := Config(Some(Home), None, None, None, "hook", None, Some(["HomeWifi"]), false,
                            InitialActiveType(Some(Home), Some(["HomeWifi"]), false, None, Some("CoffeeShopWifi")));
      c.activeURLType == External && OnNetwork(c, Some("HomeWifi")) &&
      Resolve(c, Some("HomeWifi")).result == Err(External)
  {
  }

  /** The same with the remote UI type active and neither a remote UI nor an external URL. */
  lemma RemoteUIOnNetworkStillFails()
    ensures var c := Config(Some(Home), None, None, None, "hook", None, Some(["HomeWifi"]), true, RemoteUI);
      OnNetwork(c, Some("HomeWifi")) && Resolve(c, Some("HomeWifi")).result == Err(RemoteUI)
  {
  }

  /**
   * A transport failure of the active relay URL, without an internal URL,
   * switches to the external URL and asks for a retry.
   */
  lemma RelayDown(ssid: Option<string>)
    ensures var c := Config(None, Some(Public), Some(Relay), None, "hook", None, None, true, RemoteUI);
      var d := Retry(c, Some(Relay), Transport, ssid);
      d == RetryDecision(true, External) &&
      Resolve(c.(activeURLType := d.active), ssid).result == Ok(Public.(path := ""))
  {
  }

  /** With no URL at all the getter reports that the external type is unavailable. */
  lemma NothingConfigured(ssid: Option<string>)
    ensures var c := Config(None, None, None, None, "hook", None, None, false,
                            InitialActiveType(None, None, false, None, ssid));
      Resolve(c, ssid).result == Err(External)
  {
  }
}
