/**
 * Properties that hold across all operations: off the internal network the
 * automatic logic never moves to the internal type.
 */
module Invariants {
  import opened Wrappers
  import opened Urls
  import opened Endpoints
  import opened Selection
  import opened Transitions
  import opened Failover

  /**
   * Off the internal network (in particular without internal SSIDs or
   * without a current SSID), none of the getter, setAddress, the useCloud
   * observer or the retry decision makes the internal type active unless it
   * already was.
   */
  lemma OffNetworkNeverSelectsInternal(c: Config, ssid: Option<string>, a: Option<Url>, t: URLType,
                                       useCloud: bool, requestURL: Option<Url>, error: ErrorKind)
    requires !OnNetwork(c, ssid)
    requires c.activeURLType != Internal
    ensures Resolve(c, ssid).active != Internal
    ensures AfterSetAddress(c, a, t, ssid).activeURLType != Internal
    ensures AfterUseCloud(c, useCloud, ssid).activeURLType != Internal
    ensures Retry(c, requestURL, error, ssid).active != Internal
  {
    var s := StepOf(c, ssid);
    if s.Switch? {
      assert !StepOf(c.(activeURLType := s.next), ssid).Switch?;
    }
  }
}
