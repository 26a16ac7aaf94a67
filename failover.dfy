/** `should(_:retry:with:)`: whether a failed request is retried on another URL type. */
module Failover {
  import opened Wrappers
  import opened Urls
  import opened Endpoints
  import opened Selection

  /** The error of the failed request: from the URL loading system (`NSURLErrorDomain`) or anything else. */
  datatype ErrorKind = Transport | Other

  /** Whether to retry, and the active type afterwards. */
  datatype RetryDecision = RetryDecision(retry: bool, active: URLType)

  /** The remote UI is active, the request went to it, and the connection itself failed. */
  predicate RemoteUIFailure(c: Config, url: Url, error: ErrorKind) {
    c.activeURLType == RemoteUI && Some(url) == c.remoteUIURL && error == Transport
  }

  /** The internal type is active and the request went to the internal URL. */
  predicate InternalURLFailure(c: Config, url: Url) {
    c.activeURLType == Internal && Some(url) == c.internalURL
  }

  /**
   * `requestURL` is the failed request's URL, absent when the request has
   * none. A retry always comes with a switch to a different type that has a
   * URL; no retry leaves the active type as it was.
   */
  function Retry(c: Config, requestURL: Option<Url>, error: ErrorKind, ssid: Option<string>): (d: RetryDecision)
    ensures d.retry ==> d.active != c.activeURLType && Address(c, d.active).Some?
    ensures !d.retry ==> d.active == c.activeURLType
  {
    var keep := RetryDecision(false, c.activeURLType);
    if requestURL.None? then keep
    else if RemoteUIFailure(c, requestURL.value, error) then
      if c.internalURL.Some? && OnNetwork(c, ssid) then RetryDecision(true, Internal)
      else if c.externalURL.Some? then RetryDecision(true, External)
      else keep
    else if InternalURLFailure(c, requestURL.value) then
      if c.useCloud && c.remoteUIURL.Some? then RetryDecision(true, RemoteUI)
      else if c.externalURL.Some? then RetryDecision(true, External)
      else keep
    else keep
  }

  /**
   * A retry is requested exactly for a transport failure on the active remote
   * UI URL, or any failure on the active internal URL, and only when there is
   * another type to switch to.
   */
  lemma RetryExactly(c: Config, requestURL: Option<Url>, error: ErrorKind, ssid: Option<string>)
    ensures Retry(c, requestURL, error, ssid).retry <==>
      requestURL.Some? &&
      (|| (RemoteUIFailure(c, requestURL.value, error) &&
           ((c.internalURL.Some? && OnNetwork(c, ssid)) || c.externalURL.Some?))
       || (InternalURLFailure(c, requestURL.value) &&
           ((c.useCloud && c.remoteUIURL.Some?) || c.externalURL.Some?)))
  {
  }

  /** After a retry is decided, reading the active URL succeeds. */
  lemma RetryThenResolves(c: Config, requestURL: Option<Url>, error: ErrorKind, ssid: Option<string>)
    requires Retry(c, requestURL, error, ssid).retry
    ensures Resolve(c.(activeURLType := Retry(c, requestURL, error, ssid).active), ssid).result.Ok?
  {
    var d := Retry(c, requestURL, error, ssid);
    ResolveSucceedsWhenActivePresent(c.(activeURLType := d.active), ssid);
  }
}
