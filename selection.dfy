/**
 * The `activeURL` getter as a function of the stored state and the current
 * SSID: one pass of its `switch`, the recursion over such passes, and the
 * URLs derived from its result (`activeAPIURL`, `webhookURL`, `adapt`).
 */
module Selection {
  import opened Wrappers
  import opened Urls
  import opened Endpoints

  /** What one pass of the getter's `switch` does. */
  datatype Step =
    | Settle(chosen: URLType)  // make `chosen` active (when it is not yet) and return its sanitized URL
    | Switch(next: URLType)    // make `next` active and ask the getter again
    | Unavailable              // the failure branch: no URL for the active type

  /** A bound on the number of passes still to come; each `Switch` lowers it. */
  function Hops(c: Config): nat {
    match c.activeURLType
    case Internal => 2
    case RemoteUI => if c.remoteUIURL.Some? then 0 else 1
    case External => if c.externalURL.Some? then 0 else 1
  }

  function StepOf(c: Config, ssid: Option<string>): (s: Step)
    ensures s.Settle? ==> Address(c, s.chosen).Some?
    ensures s.Switch? ==> s.next != c.activeURLType && Hops(c.(activeURLType := s.next)) < Hops(c)
  {
    var onNetwork := OnNetwork(c, ssid);
    match c.activeURLType
    case Internal =>
      if c.internalURL.Some? then
        if !onNetwork then
          if c.useCloud && c.remoteUIURL.Some? then Switch(RemoteUI)
          else if c.externalURL.Some? then Switch(External)
          else Settle(Internal)  // nothing to switch to: keep the internal URL
        else Settle(Internal)
      else if c.useCloud && c.remoteUIURL.Some? then Switch(RemoteUI)
      else Switch(External)
    case RemoteUI =>
      if c.remoteUIURL.Some? then
        if c.internalURL.Some? && onNetwork then Settle(Internal) else Settle(RemoteUI)
      else if c.externalURL.Some? then Switch(External)
      else Unavailable
    case External =>
      if c.externalURL.Some? then
        if c.internalURL.Some? && onNetwork then Settle(Internal) else Settle(External)
      else if c.useCloud && c.remoteUIURL.Some? then Switch(RemoteUI)
      else Unavailable
  }

  /**
   * The outcome of reading a URL through the getter: the URL or, in the
   * failure branch, the type that was active; the active type afterwards;
   * and how many times the getter changed the active type (each change is
   * persisted once).
   */
  datatype Lookup<T> = Lookup(result: Result<T, URLType>, active: URLType, switches: nat)
  {
    function MapURL<U>(f: T -> U): Lookup<U> {
      Lookup(if result.Ok? then Ok(f(result.value)) else Err(result.error), active, switches)
    }
  }

  /** The `activeURL` getter. */
  function Resolve(c: Config, ssid: Option<string>): (l: Lookup<Url>)
    ensures l.result.Ok? ==> Address(c, l.active).Some? && l.result.value == Sanitized(Address(c, l.active).value)
    ensures l.result.Err? ==> l.result.error == l.active && Address(c, l.active).None?
    decreases Hops(c)
  {
    match StepOf(c, ssid)
    case Settle(t) =>
      Lookup(Ok(Sanitized(Address(c, t).value)), t, if t == c.activeURLType then 0 else 1)
    case Switch(t) =>
      var l := Resolve(c.(activeURLType := t), ssid);
      l.(switches := l.switches + 1)
    case Unavailable =>
      Lookup(Err(c.activeURLType), c.activeURLType, 0)
  }

  /** The configurations for which the getter ends in its failure branch. */
  predicate Exhausted(c: Config) {
    match c.activeURLType
    case Internal => c.internalURL.None? && c.externalURL.None? && !(c.useCloud && c.remoteUIURL.Some?)
    case RemoteUI => c.remoteUIURL.None? && c.externalURL.None?
    case External => c.externalURL.None? && !(c.useCloud && c.remoteUIURL.Some?)
  }

  /** After a switch the next pass settles or fails: the getter calls itself at most once. */
  lemma SwitchThenSettles(c: Config, ssid: Option<string>)
    requires StepOf(c, ssid).Switch?
    ensures !StepOf(c.(activeURLType := StepOf(c, ssid).next), ssid).Switch?
  {
  }

  /** The getter fails exactly on exhausted configurations, whatever the network. */
  lemma ResolveFailsExactly(c: Config, ssid: Option<string>)
    ensures Resolve(c, ssid).result.Err? <==> Exhausted(c)
  {
    var s := StepOf(c, ssid);
    if s.Switch? {
      assert !StepOf(c.(activeURLType := s.next), ssid).Switch?;
    }
  }

  /** When the active type's own URL is present, the getter returns a URL. */
  lemma ResolveSucceedsWhenActivePresent(c: Config, ssid: Option<string>)
    requires Address(c, c.activeURLType).Some?
    ensures Resolve(c, ssid).result.Ok?
  {
    ResolveFailsExactly(c, ssid);
  }

  /** On the internal network with an internal URL, every URL the getter returns is the internal one. */
  lemma ResolvePrefersInternalOnNetwork(c: Config, ssid: Option<string>)
    requires c.internalURL.Some? && OnNetwork(c, ssid)
    requires Resolve(c, ssid).result.Ok?
    ensures Resolve(c, ssid).active == Internal
    ensures Resolve(c, ssid).result.value == Sanitized(c.internalURL.value)
  {
    var s := StepOf(c, ssid);
    if s.Switch? {
      assert !StepOf(c.(activeURLType := s.next), ssid).Switch?;
    }
  }

  /**
   * Off the internal network the getter ends on the internal URL only when it
   * was already active and neither the remote UI (with the cloud on) nor the
   * external URL is available.
   */
  lemma ResolveInternalOffNetwork(c: Config, ssid: Option<string>)
    requires !OnNetwork(c, ssid)
    ensures Resolve(c, ssid).result.Ok? && Resolve(c, ssid).active == Internal <==>
      c.activeURLType == Internal && c.internalURL.Some? &&
      !(c.useCloud && c.remoteUIURL.Some?) && c.externalURL.None?
  {
    var s := StepOf(c, ssid);
    if s.Switch? {
      assert !StepOf(c.(activeURLType := s.next), ssid).Switch?;
    }
  }

  /** A type the getter settles on is settled on again when it is already active. */
  lemma SettleIsStable(c: Config, ssid: Option<string>)
    requires StepOf(c, ssid).Settle?
    ensures var t := StepOf(c, ssid).chosen; StepOf(c.(activeURLType := t), ssid) == Settle(t)
  {
  }

  /**
   * The getter reaches a fixed point: asked again, it returns the same
   * outcome and changes (and saves) nothing.
   */
  lemma ResolveStable(c: Config, ssid: Option<string>)
    ensures var l := Resolve(c, ssid);
      Resolve(c.(activeURLType := l.active), ssid) == l.(switches := 0)
  {
    match StepOf(c, ssid)
    case Settle(t) =>
      SettleIsStable(c, ssid);
    case Switch(t) =>
      var d := c.(activeURLType := t);
      assert !StepOf(d, ssid).Switch?;
      if StepOf(d, ssid).Settle? {
        SettleIsStable(d, ssid);
        assert d.(activeURLType := StepOf(d, ssid).chosen) == c.(activeURLType := StepOf(d, ssid).chosen);
      } else {
        assert Resolve(c, ssid).active == t;
      }
    case Unavailable =>
  }

  /** The getter saves at most twice, and saves at all exactly when it changes the active type. */
  lemma ResolveSwitches(c: Config, ssid: Option<string>)
    ensures Resolve(c, ssid).switches <= 2
    ensures Resolve(c, ssid).switches == 0 <==> Resolve(c, ssid).active == c.activeURLType
  {
    var s := StepOf(c, ssid);
    if s.Switch? {
      assert !StepOf(c.(activeURLType := s.next), ssid).Switch?;
    }
  }

  /** A URL the getter returns is recognised by `checkURLMatches` and typed by `getURLType`. */
  lemma ResolvedURLIsKnown(c: Config, ssid: Option<string>)
    requires Resolve(c, ssid).result.Ok?
    ensures CheckURLMatches(c, Resolve(c, ssid).result.value)
    ensures GetURLType(c, Resolve(c, ssid).result.value).Some?
  {
    var l := Resolve(c, ssid);
    SanitizedKeepsOrigin(Address(c, l.active).value, Address(c, l.active));
  }

  /** `webhookPath`. */
  function WebhookPath(webhookID: string): (r: string)
    ensures |r| > |webhookID| && r[0] != '/' && r[|r| - |webhookID|..] == webhookID
  {
    "api/webhook/" + webhookID
  }

  /** `activeAPIURL`: the getter's URL with the path component "api". */
  function APILookup(c: Config, ssid: Option<string>): (l: Lookup<Url>)
    ensures l.result.Ok? ==> CheckURLMatches(c, l.result.value)
    ensures l.result.Err? ==> l.result.error == l.active && Address(c, l.active).None?
  {
    Resolve(c, ssid).MapURL(u => AppendingPathComponent(u, "api"))
  }

  /** `webhookURL`: the cloudhook URL when the cloud is on, else the getter's URL with the webhook path. */
  function WebhookLookup(c: Config, ssid: Option<string>): (l: Lookup<Url>)
    ensures l.result.Ok? && !(c.useCloud && c.cloudhookURL.Some?) ==> CheckURLMatches(c, l.result.value)
    ensures l.result.Err? ==>
      !(c.useCloud && c.cloudhookURL.Some?) && l.result.error == l.active && Address(c, l.active).None?
  {
    if c.useCloud && c.cloudhookURL.Some? then Lookup(Ok(c.cloudhookURL.value), c.activeURLType, 0)
    else Resolve(c, ssid).MapURL(u => AppendingPathComponent(u, WebhookPath(c.webhookID)))
  }

  /** The API URL is the active URL, trailing slashes stripped, followed by "/api". */
  lemma APIURLComposition(c: Config, ssid: Option<string>)
    ensures var l, a := Resolve(c, ssid), APILookup(c, ssid);
      a.active == l.active && a.switches == l.switches && a.result.Ok? == l.result.Ok? &&
      (a.result.Ok? ==> a.result.value == l.result.value.(path := l.result.value.path + "/api"))
  {
  }

  /**
   * With the cloud on and a cloudhook URL, the webhook URL is the cloudhook
   * URL whatever the active type, and the getter is not consulted; otherwise
   * it is the active URL followed by "/api/webhook/" and the webhook ID.
   */
  lemma WebhookURLComposition(c: Config, ssid: Option<string>)
    ensures c.useCloud && c.cloudhookURL.Some? ==>
      WebhookLookup(c, ssid) == Lookup(Ok(c.cloudhookURL.value), c.activeURLType, 0)
    ensures !(c.useCloud && c.cloudhookURL.Some?) ==>
      var l, w := Resolve(c, ssid), WebhookLookup(c, ssid);
      w.active == l.active && w.switches == l.switches && w.result.Ok? == l.result.Ok? &&
      (w.result.Ok? ==>
         w.result.value == l.result.value.(path := l.result.value.path + "/api/webhook/" + c.webhookID))
  {
    var l := Resolve(c, ssid);
    if !(c.useCloud && c.cloudhookURL.Some?) && l.result.Ok? {
      var p := l.result.value.path;
      assert !EndsWithSlash(p);
      assert p + "/" + WebhookPath(c.webhookID) == p + "/api/webhook/" + c.webhookID;
    }
  }

  /**
   * `adapt(_:_:)` on a request whose URL is `current`: the URL it should be
   * sent to (the adapted API URL or the webhook URL), or `current` when there
   * is none; a request without a URL is left alone without consulting the
   * getter. `adapting` stands for `URL.adapting(url:)`.
   */
  function AdaptLookup(c: Config, current: Option<Url>, apiURL: bool,
                       adapting: (Url, Url) -> Option<Url>, ssid: Option<string>): (l: Lookup<Option<Url>>)
    ensures l.result.Ok? ==> (l.result.value.Some? <==> current.Some?)
    ensures l.result.Err? ==> current.Some? && l.result.error == l.active && Address(c, l.active).None?
  {
    if current.None? then Lookup(Ok(current), c.activeURLType, 0)
    else
      var expected :=
        if apiURL then Resolve(c, ssid).MapURL(u => adapting(u, current.value))
        else WebhookLookup(c, ssid).MapURL(u => Some(u));
      if expected.result == Ok(None) then expected.(result := Ok(current)) else expected
  }

  /**
   * A webhook request leaves `adapt` addressed to the webhook URL, whether it
   * was already (the no-op case) or had to be rewritten.
   */
  lemma AdaptWebhookTargetsWebhookURL(c: Config, current: Option<Url>,
                                      adapting: (Url, Url) -> Option<Url>, ssid: Option<string>)
    requires current.Some?
    ensures var a, w := AdaptLookup(c, current, false, adapting, ssid), WebhookLookup(c, ssid);
      a.active == w.active && a.switches == w.switches &&
      (w.result.Ok? ==> a.result == Ok(Some(w.result.value))) &&
      (w.result.Err? ==> a.result == Err(w.result.error))
  {
  }

  /**
   * An API request is sent to `adapting(activeURL, current)`; when that gives
   * no URL, the request keeps its own; the getter's failure propagates.
   */
  lemma AdaptAPITargetsAdaptedURL(c: Config, current: Option<Url>,
                                  adapting: (Url, Url) -> Option<Url>, ssid: Option<string>)
    requires current.Some?
    ensures var a, l := AdaptLookup(c, current, true, adapting, ssid), Resolve(c, ssid);
      a.active == l.active && a.switches == l.switches &&
      (l.result.Ok? && adapting(l.result.value, current.value).Some? ==>
         a.result == Ok(adapting(l.result.value, current.value))) &&
      (l.result.Ok? && adapting(l.result.value, current.value).None? ==> a.result == Ok(current)) &&
      (l.result.Err? ==> a.result == Err(l.result.error))
  {
  }

  /** A request without a URL is returned unchanged and nothing is switched or saved. */
  lemma AdaptWithoutURL(c: Config, apiURL: bool, adapting: (Url, Url) -> Option<Url>, ssid: Option<string>)
    ensures AdaptLookup(c, None, apiURL, adapting, ssid) == Lookup(Ok(None), c.activeURLType, 0)
  {
  }
}
