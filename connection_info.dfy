/**
 * The `ConnectionInfo` object: its stored properties, whose observers persist
 * the object after every real change, and the operations that read and
 * update the active URL type in place.
 */
module Connection {
  import opened Wrappers
  import opened Urls
  import opened Endpoints
  import opened Selection
  import opened Transitions
  import opened Failover

  /** The values the crash reporter's "RemoteConnectionMethod" user property is set to. */
  const ExternalMethod := "externalURL"
  const RemoteUIMethod := "remoteUI"

  /** The connection method reported when a URL of type `t` is stored; none for the internal URL. */
  function ReportedMethods(t: URLType, changed: bool, a: Option<Url>): seq<string> {
    if !changed || a.None? then []
    else match t
      case Internal => []
      case External => [ExternalMethod]
      case RemoteUI => [RemoteUIMethod]
  }

  class ConnectionInfo {
    var externalURL: Option<Url>
    var internalURL: Option<Url>
    var remoteUIURL: Option<Url>
    var webhookID: string
    var webhookSecret: Option<string>
    var cloudhookURL: Option<Url>
    var internalSSIDs: Option<seq<string>>
    var useCloud: bool
    var activeURLType: URLType

    /** How many times the object was handed to the settings store. */
    ghost var saveCount: nat
    /** The values given to the crash reporter's "RemoteConnectionMethod" property, oldest first. */
    ghost var connectionMethods: seq<string>

    function State(): Config
      reads this
    {
      Config(internalURL, externalURL, remoteUIURL, cloudhookURL, webhookID, webhookSecret,
             internalSSIDs, useCloud, activeURLType)
    }

    /**
     * `init`: the cloud preference keeps its default `false`, observers do not
     * run, and the active type is chosen from the internal URL and network.
     */
    constructor (externalURL: Option<Url>, internalURL: Option<Url>, cloudhookURL: Option<Url>,
                 remoteUIURL: Option<Url>, webhookID: string, webhookSecret: Option<string>,
                 internalSSIDs: Option<seq<string>>, ssid: Option<string>)
      ensures State() == Config(internalURL, externalURL, remoteUIURL, cloudhookURL, webhookID, webhookSecret,
                                internalSSIDs, false,
                                InitialActiveType(internalURL, internalSSIDs, false, remoteUIURL, ssid))
      ensures activeURLType != RemoteUI
      ensures saveCount == 0 && connectionMethods == []
    {
      this.externalURL := externalURL;
      this.internalURL := internalURL;
      this.cloudhookURL := cloudhookURL;
      this.remoteUIURL := remoteUIURL;
      this.webhookID := webhookID;
      this.webhookSecret := webhookSecret;
      this.internalSSIDs := internalSSIDs;
      this.useCloud := false;
      this.activeURLType := InitialActiveType(internalURL, internalSSIDs, false, remoteUIURL, ssid);
      this.saveCount := 0;
      this.connectionMethods := [];
      new;
      InitialSelection(internalURL, internalSSIDs, remoteUIURL, ssid);
    }

    /** The `externalURL` setter and its observer. */
    method SetExternalURL(url: Option<Url>)
      modifies this
      ensures State() == old(State()).(externalURL := url)
      ensures saveCount == old(saveCount) + (if url != old(externalURL) then 1 else 0)
      ensures connectionMethods == old(connectionMethods) + ReportedMethods(External, url != old(externalURL), url)
    {
      var oldValue := externalURL;
      externalURL := url;
      if externalURL == oldValue { return; }
      saveCount := saveCount + 1;
      if externalURL.None? { return; }
      connectionMethods := connectionMethods + [ExternalMethod];
    }

    /** The `internalURL` setter and its observer. */
    method SetInternalURL(url: Option<Url>)
      modifies this
      ensures State() == old(State()).(internalURL := url)
      ensures saveCount == old(saveCount) + (if url != old(internalURL) then 1 else 0)
      ensures connectionMethods == old(connectionMethods)
    {
      var oldValue := internalURL;
      internalURL := url;
      if internalURL == oldValue { return; }
      saveCount := saveCount + 1;
    }

    /** The `remoteUIURL` setter and its observer. */
    method SetRemoteUIURL(url: Option<Url>)
      modifies this
      ensures State() == old(State()).(remoteUIURL := url)
      ensures saveCount == old(saveCount) + (if url != old(remoteUIURL) then 1 else 0)
      ensures connectionMethods == old(connectionMethods) + ReportedMethods(RemoteUI, url != old(remoteUIURL), url)
    {
      var oldValue := remoteUIURL;
      remoteUIURL := url;
      if remoteUIURL == oldValue { return; }
      saveCount := saveCount + 1;
      if remoteUIURL.None? { return; }
      connectionMethods := connectionMethods + [RemoteUIMethod];
    }

    /** The `webhookID` setter and its observer. */
    method SetWebhookID(id: string)
      modifies this
      ensures State() == old(State()).(webhookID := id)
      ensures saveCount == old(saveCount) + (if id != old(webhookID) then 1 else 0)
      ensures connectionMethods == old(connectionMethods)
    {
      var oldValue := webhookID;
      webhookID := id;
      if webhookID == oldValue { return; }
      saveCount := saveCount + 1;
    }

    /** The `webhookSecret` setter and its observer. */
    method SetWebhookSecret(secret: Option<string>)
      modifies this
      ensures State() == old(State()).(webhookSecret := secret)
      ensures saveCount == old(saveCount) + (if secret != old(webhookSecret) then 1 else 0)
      ensures connectionMethods == old(connectionMethods)
    {
      var oldValue := webhookSecret;
      webhookSecret := secret;
      if webhookSecret == oldValue { return; }
      saveCount := saveCount + 1;
    }

    /** The `cloudhookURL` setter and its observer. */
    method SetCloudhookURL(url: Option<Url>)
      modifies this
      ensures State() == old(State()).(cloudhookURL := url)
      ensures saveCount == old(saveCount) + (if url != old(cloudhookURL) then 1 else 0)
      ensures connectionMethods == old(connectionMethods)
    {
      var oldValue := cloudhookURL;
      cloudhookURL := url;
      if cloudhookURL == oldValue { return; }
      saveCount := saveCount + 1;
    }

    /** The `internalSSIDs` setter and its observer. */
    method SetInternalSSIDs(ssids: Option<seq<string>>)
      modifies this
      ensures State() == old(State()).(internalSSIDs := ssids)
      ensures saveCount == old(saveCount) + (if ssids != old(internalSSIDs) then 1 else 0)
      ensures connectionMethods == old(connectionMethods)
    {
      var oldValue := internalSSIDs;
      internalSSIDs := ssids;
      if internalSSIDs == oldValue { return; }
      saveCount := saveCount + 1;
    }

    /** The `activeURLType` setter and its observer (its log line is not modelled). */
    method SetActiveURLType(t: URLType)
      modifies this
      ensures State() == old(State()).(activeURLType := t)
      ensures saveCount == old(saveCount) + (if t != old(activeURLType) then 1 else 0)
      ensures connectionMethods == old(connectionMethods)
    {
      var oldValue := activeURLType;
      activeURLType := t;
      if oldValue == activeURLType { return; }
      saveCount := saveCount + 1;
    }

    /**
     * The `useCloud` setter and its observer: on a real change it saves, then
     * selects the internal type on the internal network and otherwise the
     * remote UI or external type, which saves again when that is a change.
     */
    method SetUseCloud(value: bool, ssid: Option<string>)
      modifies this
      ensures State() == AfterUseCloud(old(State()), value, ssid)
      ensures saveCount == old(saveCount) +
        (if value == old(useCloud) then 0 else if activeURLType == old(activeURLType) then 1 else 2)
      ensures connectionMethods == old(connectionMethods)
    {
      var oldValue := useCloud;
      useCloud := value;
      if useCloud == oldValue { return; }
      saveCount := saveCount + 1;
      if useCloud {
        if internalURL.Some? && OnInternalNetwork(internalSSIDs, ssid) {
          SetActiveURLType(Internal);
        } else {
          SetActiveURLType(RemoteUI);
        }
      } else {
        if internalURL.Some? && OnInternalNetwork(internalSSIDs, ssid) {
          SetActiveURLType(Internal);
        } else {
          SetActiveURLType(External);
        }
      }
    }

    /**
     * The `activeURL` getter: returns the sanitized URL of the type it ends on,
     * switching (and saving) the active type first when the network or the
     * stored URLs call for it, or the failure value when no URL is available.
     */
    method ActiveURL(ssid: Option<string>) returns (r: Result<Url, URLType>)
      modifies this
      decreases Hops(State())
      ensures var l := Resolve(old(State()), ssid);
        r == l.result && State() == old(State()).(activeURLType := l.active) &&
        saveCount == old(saveCount) + l.switches
      ensures connectionMethods == old(connectionMethods)
    {
      ghost var c := State();
      match activeURLType {
      case Internal =>
        if internalURL.Some? {
          var url := internalURL.value;
          if !OnInternalNetwork(internalSSIDs, ssid) {
            if useCloud && remoteUIURL.Some? {
              SetActiveURLType(RemoteUI);
            } else if externalURL.Some? {
              SetActiveURLType(External);
            } else {
              // nothing to switch to: keep the internal URL
              assert StepOf(c, ssid) == Settle(Internal);
              var s := Sanitize(url);
              return Ok(s);
            }
            assert StepOf(c, ssid) == Switch(activeURLType);
            r := ActiveURL(ssid);
            return;
          }
          assert StepOf(c, ssid) == Settle(Internal);
          var s := Sanitize(url);
          return Ok(s);
        } else {
          if useCloud && remoteUIURL.Some? {
            SetActiveURLType(RemoteUI);
          } else {
            SetActiveURLType(External);
          }
          assert StepOf(c, ssid) == Switch(activeURLType);
          r := ActiveURL(ssid);
          return;
        }
      case RemoteUI =>
        if remoteUIURL.Some? {
          var url := remoteUIURL.value;
          if internalURL.Some? && OnInternalNetwork(internalSSIDs, ssid) {
            var internalAddress := internalURL.value;
            SetActiveURLType(Internal);
            assert StepOf(c, ssid) == Settle(Internal);
            var s := Sanitize(internalAddress);
            return Ok(s);
          }
          assert StepOf(c, ssid) == Settle(RemoteUI);
          var s := Sanitize(url);
          return Ok(s);
        } else if externalURL.Some? {
          SetActiveURLType(External);
          assert StepOf(c, ssid) == Switch(External);
          r := ActiveURL(ssid);
          return;
        }
      case External =>
        if externalURL.Some? {
          var url := externalURL.value;
          if internalURL.Some? && OnInternalNetwork(internalSSIDs, ssid) {
            var internalAddress := internalURL.value;
            SetActiveURLType(Internal);
            assert StepOf(c, ssid) == Settle(Internal);
            var s := Sanitize(internalAddress);
            return Ok(s);
          }
          assert StepOf(c, ssid) == Settle(External);
          var s := Sanitize(url);
          return Ok(s);
        } else if useCloud && remoteUIURL.Some? {
          SetActiveURLType(RemoteUI);
          assert StepOf(c, ssid) == Switch(RemoteUI);
          r := ActiveURL(ssid);
          return;
        }
      }
      // The failure branch: no URL for the active type.
      assert StepOf(c, ssid) == Unavailable;
      r := Err(activeURLType);
    }

    /** `activeAPIURL`: the active URL followed by the path component "api". */
    method ActiveAPIURL(ssid: Option<string>) returns (r: Result<Url, URLType>)
      modifies this
      ensures var l := APILookup(old(State()), ssid);
        r == l.result && State() == old(State()).(activeURLType := l.active) &&
        saveCount == old(saveCount) + l.switches
      ensures connectionMethods == old(connectionMethods)
    {
      var active := ActiveURL(ssid);
      r := if active.Ok? then Ok(AppendingPathComponent(active.value, "api")) else active;
    }

    /** `webhookURL`: the cloudhook URL when the cloud is on, else the active URL followed by the webhook path. */
    method WebhookURL(ssid: Option<string>) returns (r: Result<Url, URLType>)
      modifies this
      ensures var l := WebhookLookup(old(State()), ssid);
        r == l.result && State() == old(State()).(activeURLType := l.active) &&
        saveCount == old(saveCount) + l.switches
      ensures connectionMethods == old(connectionMethods)
    {
      if useCloud && cloudhookURL.Some? {
        return Ok(cloudhookURL.value);
      }
      var active := ActiveURL(ssid);
      r := if active.Ok? then Ok(AppendingPathComponent(active.value, WebhookPath(webhookID))) else active;
    }

    /**
     * `setAddress(_:_:)`: stores the address through its observed setter, then
     * updates the active type following the table for that address type.
     */
    method SetAddress(address: Option<Url>, addressType: URLType, ssid: Option<string>)
      modifies this
      ensures State() == AfterSetAddress(old(State()), address, addressType, ssid)
      ensures saveCount == old(saveCount) +
        (if Address(old(State()), addressType) != address then 1 else 0) +
        (if activeURLType != old(activeURLType) then 1 else 0)
      ensures connectionMethods == old(connectionMethods) +
        ReportedMethods(addressType, Address(old(State()), addressType) != address, address)
    {
      ghost var c := State();
      match addressType {
      case Internal =>
        SetInternalURL(address);
        assert State() == WithAddress(c, Internal, address);
        if internalURL.None? {
          if useCloud && remoteUIURL.Some? {
            SetActiveURLType(RemoteUI);
          } else {
            SetActiveURLType(External);
          }
        } else if internalURL.Some? && OnInternalNetwork(internalSSIDs, ssid) {
          SetActiveURLType(Internal);
        }
      case External =>
        SetExternalURL(address);
        assert State() == WithAddress(c, External, address);
        if externalURL.None? {
          if internalURL.Some? && OnInternalNetwork(internalSSIDs, ssid) {
            SetActiveURLType(Internal);
          } else if useCloud && remoteUIURL.Some? {
            SetActiveURLType(RemoteUI);
          }
        } else if activeURLType != Internal {
          SetActiveURLType(External);
        }
      case RemoteUI =>
        SetRemoteUIURL(address);
        assert State() == WithAddress(c, RemoteUI, address);
        if remoteUIURL.None? {
          if internalURL.Some? && OnInternalNetwork(internalSSIDs, ssid) {
            SetActiveURLType(Internal);
          } else if externalURL.Some? {
            SetActiveURLType(External);
          }
        } else if activeURLType != Internal && useCloud {
          SetActiveURLType(RemoteUI);
        }
      }
    }

    /** `adaptAPIURL(_:)`: `existing` moved onto the active URL by `adapting` (standing for `URL.adapting(url:)`). */
    method AdaptAPIURL(existing: Url, adapting: (Url, Url) -> Option<Url>, ssid: Option<string>)
      returns (r: Result<Option<Url>, URLType>)
      modifies this
      ensures var l := Resolve(old(State()), ssid).MapURL(u => adapting(u, existing));
        r == l.result && State() == old(State()).(activeURLType := l.active) &&
        saveCount == old(saveCount) + l.switches
      ensures connectionMethods == old(connectionMethods)
    {
      var active := ActiveURL(ssid);
      r := if active.Ok? then Ok(adapting(active.value, existing)) else Err(active.error);
    }

    /**
     * `adapt(_:_:)` on a request whose URL is `current`: the URL the request
     * leaves with. A request without a URL, or without a target, is left as it
     * is; a request already addressed to its target is not rewritten.
     */
    method Adapt(current: Option<Url>, apiURL: bool, adapting: (Url, Url) -> Option<Url>, ssid: Option<string>)
      returns (r: Result<Option<Url>, URLType>)
      modifies this
      ensures var l := AdaptLookup(old(State()), current, apiURL, adapting, ssid);
        r == l.result && State() == old(State()).(activeURLType := l.active) &&
        saveCount == old(saveCount) + l.switches
      ensures connectionMethods == old(connectionMethods)
    {
      if current.None? {
        return Ok(current);
      }
      var expected: Option<Url>;
      if apiURL {
        var adapted := AdaptAPIURL(current.value, adapting, ssid);
        if adapted.Err? {
          return Err(adapted.error);
        }
        expected := adapted.value;
      } else {
        var webhook := WebhookURL(ssid);
        if webhook.Err? {
          return Err(webhook.error);
        }
        expected := Some(webhook.value);
      }
      if expected.None? {
        return Ok(current);
      }
      if current.value == expected.value {
        // no need to change the request URL
        return Ok(current);
      }
      r := Ok(expected);
    }

    /**
     * `should(_:retry:with:)`: on a transport failure of the active remote UI
     * URL, or any failure of the active internal URL, switches to another type
     * with a URL and asks for a retry; otherwise changes nothing.
     */
    method ShouldRetry(requestURL: Option<Url>, error: ErrorKind, ssid: Option<string>) returns (retry: bool)
      modifies this
      ensures var d := Retry(old(State()), requestURL, error, ssid);
        retry == d.retry && State() == old(State()).(activeURLType := d.active)
      ensures saveCount == old(saveCount) + (if retry then 1 else 0)
      ensures connectionMethods == old(connectionMethods)
    {
      if requestURL.None? {
        // the request has no URL
        return false;
      }
      var url := requestURL.value;
      var isRemoteUIFailure := activeURLType == RemoteUI && Some(url) == remoteUIURL && error == Transport;
      var isInternalURLFailure := activeURLType == Internal && Some(url) == internalURL;
      if isRemoteUIFailure {
        if internalURL.Some? && OnInternalNetwork(internalSSIDs, ssid) {
          SetActiveURLType(Internal);
        } else if externalURL.Some? {
          SetActiveURLType(External);
        } else {
          return false;
        }
        return true;
      } else if isInternalURLFailure {
        if useCloud && remoteUIURL.Some? {
          SetActiveURLType(RemoteUI);
        } else if externalURL.Some? {
          SetActiveURLType(External);
        } else {
          return false;
        }
        return true;
      }
      return false;
    }
  }
}
