/**
 * How the stored state changes: the initial choice of active type, the
 * `setAddress` transition table and the `useCloud` observer.
 */
module Transitions {
  import opened Wrappers
  import opened Urls
  import opened Endpoints
  import opened Selection

  /** The active type chosen by `init` (where `useCloud` still holds its default). */
  function InitialActiveType(internalURL: Option<Url>, internalSSIDs: Option<seq<string>>, useCloud: bool,
                             remoteUIURL: Option<Url>, ssid: Option<string>): (r: URLType)
    ensures r == Internal <==> internalURL.Some? && OnInternalNetwork(internalSSIDs, ssid)
    ensures r == RemoteUI ==> useCloud && remoteUIURL.Some?
  {
    if internalURL.Some? && internalSSIDs.Some? && OnInternalNetwork(internalSSIDs, ssid) then Internal
    else if useCloud && remoteUIURL.Some? then RemoteUI
    else External
  }

  /**
   * With the cloud preference at its default `false`, initialisation picks the
   * internal type exactly when an internal URL exists and the device is on the
   * internal network, and the external type otherwise, never the remote UI.
   */
  lemma InitialSelection(internalURL: Option<Url>, internalSSIDs: Option<seq<string>>,
                         remoteUIURL: Option<Url>, ssid: Option<string>)
    ensures InitialActiveType(internalURL, internalSSIDs, false, remoteUIURL, ssid) != RemoteUI
    ensures InitialActiveType(internalURL, internalSSIDs, false, remoteUIURL, ssid) == Internal <==>
      internalURL.Some? && OnInternalNetwork(internalSSIDs, ssid)
  {
  }

  /** Everything but the three endpoint URLs and the active type is equal. */
  predicate SameSettings(c: Config, d: Config) {
    c.cloudhookURL == d.cloudhookURL && c.webhookID == d.webhookID && c.webhookSecret == d.webhookSecret &&
    c.internalSSIDs == d.internalSSIDs && c.useCloud == d.useCloud
  }

  /** `setAddress(_:_:)`: store the address, then follow the per-type table for the active type. */
  function AfterSetAddress(c: Config, a: Option<Url>, t: URLType, ssid: Option<string>): (r: Config)
    ensures Address(r, t) == a
    ensures forall s :: s != t ==> Address(r, s) == Address(c, s)
    ensures SameSettings(c, r)
  {
    var d := WithAddress(c, t, a);
    var onNetwork := OnNetwork(d, ssid);
    var active :=
      match t
      case Internal =>
        if d.internalURL.None? then
          if d.useCloud && d.remoteUIURL.Some? then RemoteUI else External
        else if onNetwork then Internal
        else d.activeURLType
      case External =>
        if d.externalURL.None? then
          if d.internalURL.Some? && onNetwork then Internal
          else if d.useCloud && d.remoteUIURL.Some? then RemoteUI
          else d.activeURLType
        else if d.activeURLType != Internal then External
        else d.activeURLType
      case RemoteUI =>
        if d.remoteUIURL.None? then
          if d.internalURL.Some? && onNetwork then Internal
          else if d.externalURL.Some? then External
          else d.activeURLType
        else if d.activeURLType != Internal && d.useCloud then RemoteUI
        else d.activeURLType;
    d.(activeURLType := active)
  }

  /** Setting an internal URL while on the internal network makes it active, whatever was active. */
  lemma SetInternalOnNetworkActivates(c: Config, a: Option<Url>, ssid: Option<string>)
    requires a.Some? && OnNetwork(c, ssid)
    ensures AfterSetAddress(c, a, Internal, ssid).activeURLType == Internal
  {
  }

  /** On the internal network with an internal URL, setting another address keeps the internal type active. */
  lemma SetOtherAddressKeepsInternal(c: Config, a: Option<Url>, t: URLType, ssid: Option<string>)
    requires c.activeURLType == Internal && c.internalURL.Some? && OnNetwork(c, ssid)
    requires t != Internal
    ensures AfterSetAddress(c, a, t, ssid).activeURLType == Internal
  {
  }

  /**
   * When setAddress moves the active type, the new type has a URL, except
   * when clearing the internal URL falls back to the external type
   * unconditionally.
   */
  lemma SetAddressMovesToConfigured(c: Config, a: Option<Url>, t: URLType, ssid: Option<string>)
    requires !(t == Internal && a.None?)
    ensures var r := AfterSetAddress(c, a, t, ssid);
      r.activeURLType != c.activeURLType ==> Address(r, r.activeURLType).Some?
  {
  }

  /** Clearing the internal URL without the cloud remote UI selects the external type, present or not. */
  lemma ClearInternalSelectsExternal(c: Config, ssid: Option<string>)
    requires !(c.useCloud && c.remoteUIURL.Some?)
    ensures AfterSetAddress(c, None, Internal, ssid).activeURLType == External
  {
  }

  /**
   * The "moves to" rows of the table: clearing the internal URL with a cloud
   * remote UI selects it; storing an external URL while internal is not
   * active selects external; storing a remote UI URL with the cloud on while
   * internal is not active selects it; clearing the external or remote UI URL
   * selects internal on the network, else the remaining type that qualifies.
   */
  lemma SetAddressMovesTo(c: Config, a: Option<Url>, ssid: Option<string>)
    ensures c.useCloud && c.remoteUIURL.Some? ==>
      AfterSetAddress(c, None, Internal, ssid).activeURLType == RemoteUI
    ensures a.Some? && c.activeURLType != Internal ==>
      AfterSetAddress(c, a, External, ssid).activeURLType == External
    ensures a.Some? && c.activeURLType != Internal && c.useCloud ==>
      AfterSetAddress(c, a, RemoteUI, ssid).activeURLType == RemoteUI
    ensures c.internalURL.Some? && OnNetwork(c, ssid) ==>
      AfterSetAddress(c, None, External, ssid).activeURLType == Internal &&
      AfterSetAddress(c, None, RemoteUI, ssid).activeURLType == Internal
    ensures !(c.internalURL.Some? && OnNetwork(c, ssid)) && c.useCloud && c.remoteUIURL.Some? ==>
      AfterSetAddress(c, None, External, ssid).activeURLType == RemoteUI
    ensures !(c.internalURL.Some? && OnNetwork(c, ssid)) && c.externalURL.Some? ==>
      AfterSetAddress(c, None, RemoteUI, ssid).activeURLType == External
  {
  }

  /**
   * The external and remote UI cases leave the active type alone when they
   * have nothing to switch to; so does setting a remote UI URL while the
   * internal type is active or the cloud is off.
   */
  lemma SetAddressLeavesActive(c: Config, a: Option<Url>, t: URLType, ssid: Option<string>)
    requires
      || (t == External && a.None? && !(c.internalURL.Some? && OnNetwork(c, ssid)) && !(c.useCloud && c.remoteUIURL.Some?))
      || (t == RemoteUI && a.None? && !(c.internalURL.Some? && OnNetwork(c, ssid)) && c.externalURL.None?)
      || (t == RemoteUI && a.Some? && (c.activeURLType == Internal || !c.useCloud))
      || (t == Internal && a.Some? && !OnNetwork(c, ssid))
      || (t == External && a.Some? && c.activeURLType == Internal)
    ensures AfterSetAddress(c, a, t, ssid).activeURLType == c.activeURLType
  {
  }

  /** Setting the same address twice is the same as setting it once. */
  lemma SetAddressIdempotent(c: Config, a: Option<Url>, t: URLType, ssid: Option<string>)
    ensures var r := AfterSetAddress(c, a, t, ssid); AfterSetAddress(r, a, t, ssid) == r
  {
  }

  /**
   * After storing a present URL, the getter no longer fails: for the remote UI
   * URL this needs the cloud on, and for the internal URL the internal
   * network (off it, an active remote UI or external type without a URL is
   * left active and the getter still fails).
   */
  lemma SetPresentAddressAvoidsFailure(c: Config, a: Option<Url>, t: URLType, ssid: Option<string>)
    requires a.Some? && (t == RemoteUI ==> c.useCloud) && (t == Internal ==> OnNetwork(c, ssid))
    ensures Resolve(AfterSetAddress(c, a, t, ssid), ssid).result.Ok?
  {
    var r := AfterSetAddress(c, a, t, ssid);
    assert !Exhausted(r);
    ResolveFailsExactly(r, ssid);
  }

  /**
   * Off the internal network, storing an internal URL while the active
   * external type has no URL (and no cloud remote UI exists) leaves the
   * getter failing, although an internal URL is now configured.
   */
  lemma SetInternalOffNetworkStillFails(c: Config, a: Option<Url>, ssid: Option<string>)
    requires a.Some? && !OnNetwork(c, ssid)
    requires c.activeURLType == External && c.externalURL.None? && !(c.useCloud && c.remoteUIURL.Some?)
    ensures var r := AfterSetAddress(c, a, Internal, ssid);
      r.internalURL == a && Resolve(r, ssid).result == Err(External)
  {
  }

  /** The `useCloud` observer: nothing on an equal value; on a change, the new active type. */
  function AfterUseCloud(c: Config, useCloud: bool, ssid: Option<string>): (r: Config)
    ensures r == c.(useCloud := useCloud, activeURLType := r.activeURLType)
    ensures r.activeURLType != c.activeURLType ==> useCloud != c.useCloud
    ensures r.activeURLType == Internal && c.activeURLType != Internal ==>
      c.internalURL.Some? && OnNetwork(c, ssid)
  {
    if useCloud == c.useCloud then c
    else
      var active :=
        if useCloud then
          if c.internalURL.Some? && OnNetwork(c, ssid) then Internal else RemoteUI
        else
          if c.internalURL.Some? && OnNetwork(c, ssid) then Internal else External;
      c.(useCloud := useCloud, activeURLType := active)
  }

  /**
   * A real change of the cloud preference selects the internal type exactly
   * when it has a URL and the device is on the internal network, and
   * otherwise the remote UI (turned on) or the external type (turned off),
   * without looking at whether that type has a URL. Only the preference and
   * the active type change.
   */
  lemma UseCloudSelection(c: Config, useCloud: bool, ssid: Option<string>)
    requires useCloud != c.useCloud
    ensures var r := AfterUseCloud(c, useCloud, ssid);
      r.useCloud == useCloud &&
      (r.activeURLType == Internal <==> c.internalURL.Some? && OnNetwork(c, ssid)) &&
      (r.activeURLType != Internal ==> r.activeURLType == (if useCloud then RemoteUI else External)) &&
      r == c.(useCloud := useCloud, activeURLType := r.activeURLType)
  {
  }

  /** Assigning the current value changes nothing. */
  lemma UseCloudUnchanged(c: Config, ssid: Option<string>)
    ensures AfterUseCloud(c, c.useCloud, ssid) == c
  {
  }

  /**
   * Off the internal network, turning the cloud on selects the remote UI, and
   * turning it off again selects the external type; nothing else changes.
   */
  lemma UseCloudToggleOffNetwork(c: Config, ssid: Option<string>)
    requires !c.useCloud && !OnNetwork(c, ssid)
    ensures AfterUseCloud(c, true, ssid).activeURLType == RemoteUI
    ensures AfterUseCloud(AfterUseCloud(c, true, ssid), false, ssid) == c.(activeURLType := External)
  {
  }

  /**
   * Turning the cloud on without a remote UI URL (and off the internal
   * network) selects a type with no URL; the next read of the active URL
   * then falls back to the external URL, or fails without one.
   */
  lemma UseCloudOnWithoutRemoteUI(c: Config, ssid: Option<string>)
    requires !c.useCloud && c.remoteUIURL.None? && !(c.internalURL.Some? && OnNetwork(c, ssid))
    ensures var r := AfterUseCloud(c, true, ssid);
      r.activeURLType == RemoteUI && Address(r, RemoteUI).None? &&
      (c.externalURL.Some? ==> Resolve(r, ssid).result == Ok(Sanitized(c.externalURL.value))) &&
      (c.externalURL.None? ==> Resolve(r, ssid).result == Err(RemoteUI))
  {
  }
}
