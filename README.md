# ConnectionInfo: endpoint selection, modelled in Dafny

This project models `ConnectionInfo`, the object with which the Home Assistant
iOS app decides how to reach the server. The server has up to three
addresses: an internal URL, used on the home Wi-Fi networks listed in
`internalSSIDs`; an external URL; and a remote UI (cloud relay) URL, used when
`useCloud` is on. The object keeps an active URL type. Its `activeURL` getter
corrects that type lazily whenever the stored URLs or the network call for it.
`setAddress` and the `useCloud` observer re-select the type. `should(retry)`
switches the type after a failed request. Every stored property saves the
object to the settings store when its value really changes.

Layout:

- `wrappers.dfy`: `Option` and `Result`.
- `urls.dfy`: the URL record (scheme, host, port, path). It also holds
  `sanitize` (strip trailing slashes, a `while` loop proved against
  `StripTrailingSlashes`), origin matching, and path appending.
- `endpoints.dfy`: `URLType` and its predicates, and the stored state as a
  value (`Config`). It also holds `address(for:)`, `isOnInternalNetwork`,
  `checkURLMatches` and `getURLType`.
- `selection.dfy`: the `activeURL` getter as a function. `StepOf` is one pass
  of its `switch` and `Resolve` is the recursion over such passes. The file
  also derives `activeAPIURL`, `webhookURL` and `adapt`, with their lemmas.
- `transitions.dfy`: the initial choice in `init`, the `setAddress` table and
  the `useCloud` observer, with their lemmas.
- `failover.dfy`: `should(_:retry:with:)`.
- `invariants.dfy`: off the internal network, no operation moves to the
  internal type.
- `connection_info.dfy`: the class. Fields with observed setters keep a ghost
  save counter and a ghost log of crash-reporter values. The getter is a
  recursive method that writes `activeURLType`. There are also `setAddress`,
  `adapt` and `should(retry)`. Each method is proved against the function
  that specifies it.
- `scenarios.dfy`: concrete configurations worked through the model.

The network signal is a parameter, `ssid: Option<string>`, the current Wi-Fi
name. The device counts as on the internal network when that name is one of
`internalSSIDs`. The getter's failure branch (an alert and a placeholder URL
on iOS, `fatalError` elsewhere) becomes `Err(activeURLType)`.

Behaviours of the code that the lemmas make explicit:

- `init` tests `useCloud` while it still holds its default `false`, so it never
  selects the remote UI (`Transitions.InitialSelection`).
- Clearing the active URL does not always leave a configured type active, and
  the getter can fail while an internal URL is configured, on the internal
  network or off it. Once their own URL is absent, the external and remote UI
  branches never look at the internal URL: with the external type active, no external URL and no cloud
  remote UI, or with the remote UI type active and neither a remote UI nor an
  external URL, every read fails (`Selection.ResolveFailsExactly`,
  `Transitions.ClearInternalSelectsExternal`,
  `Transitions.SetInternalOffNetworkStillFails`). An app set up away from home
  with only an internal URL starts on the external type and keeps failing once
  back on the home Wi-Fi (`Scenarios.BackHomeStillFails`,
  `Scenarios.RemoteUIOnNetworkStillFails`).
- Turning `useCloud` on selects the remote UI even when it has no URL
  (`Transitions.UseCloudOnWithoutRemoteUI`).

## Model

| member | source | states |
|---|---|---|
| Urls.StripTrailingSlashes | Sources/Shared/API/ConnectionInfo.swift:186-189 | the result is a prefix of the path, does not end in '/', and only '/' follows it in the path |
| Urls.StripTrailingSlashesUnique | Sources/Shared/API/ConnectionInfo.swift:186-189 | those three properties determine the stripped path uniquely |
| Urls.Sanitized | Sources/Shared/API/ConnectionInfo.swift:181-194 | a sanitized URL's path never ends in '/' |
| Urls.SanitizedIdempotent | Sources/Shared/API/ConnectionInfo.swift:181-194 | sanitizing twice is sanitizing once |
| Urls.Sanitize | Sources/Shared/API/ConnectionInfo.swift:181-194 | the loop removes exactly the trailing slashes; a path without one comes back unchanged |
| Urls.AppendingPathComponent | Sources/Shared/API/ConnectionInfo.swift:288 | the scheme, host and port are kept; the old path is a prefix and the component a suffix of the new one; a '/' precedes the component, and one is inserted exactly when the path does not already end in '/' |
| Urls.SameOriginAbsent | Sources/Shared/API/ConnectionInfo.swift:477-482 | with optional chaining, an unconfigured endpoint matches exactly the URLs without scheme, host and port |
| Urls.SanitizedKeepsOrigin | Sources/Shared/API/ConnectionInfo.swift:476-485 | sanitizing never changes which endpoint origin a URL matches |
| Endpoints.URLType.IsAffectedByCloud | Sources/Shared/API/ConnectionInfo.swift:166-178 | a type is affected by the cloud preference iff it is not affected by the SSID |
| Endpoints.Address | Sources/Shared/API/ConnectionInfo.swift:303-309 | storing back what `address(for:)` returns for a type changes nothing |
| Endpoints.AddressOfWithAddress | Sources/Shared/API/ConnectionInfo.swift:303-309 | `address(for:)` reads back what was stored for that type, the other two are untouched, and the active type is kept |
| Endpoints.NotOnNetworkWithoutSSID | Sources/Shared/API/ConnectionInfo.swift:361-364 | no internal SSIDs or no current SSID means off the network; otherwise on it iff the SSID occurs in the list |
| Endpoints.CheckURLMatches | Sources/Shared/API/ConnectionInfo.swift:476-485 | a URL with the origin of a configured endpoint matches; a URL that has a scheme, host or port matches only through a configured endpoint |
| Endpoints.GetURLType | Sources/Shared/API/ConnectionInfo.swift:488-501 | a type is returned iff `checkURLMatches` holds; the URL matches that type's origin; internal is preferred over external, and external over remote UI |
| Endpoints.OriginlessURLMatchesUnconfigured | Sources/Shared/API/ConnectionInfo.swift:476-485 | a URL without origin is reported as known once any endpoint is unconfigured |
| Selection.StepOf | Sources/Shared/API/ConnectionInfo.swift:198-245 | one pass settles only on a type with a URL, and switches only to a different type, with a smaller bound on the passes left |
| Selection.Resolve | Sources/Shared/API/ConnectionInfo.swift:197-246 | on success the URL is `sanitize(address(for: final type))`, and that address exists; on failure the final type has no URL |
| Selection.SwitchThenSettles | Sources/Shared/API/ConnectionInfo.swift:197-244 | with the network fixed, the getter calls itself at most once |
| Selection.ResolveFailsExactly | Sources/Shared/API/ConnectionInfo.swift:213-246 | the failure branch is reached iff internal: no internal, no external and no cloud remote UI; remote UI: no remote UI and no external; external: no external and no cloud remote UI |
| Selection.ResolveSucceedsWhenActivePresent | Sources/Shared/API/ConnectionInfo.swift:197-244 | the getter succeeds whenever the active type's own URL is present |
| Selection.ResolvePrefersInternalOnNetwork | Sources/Shared/API/ConnectionInfo.swift:200-237 | on the internal network with an internal URL, every successful read returns the sanitized internal URL and leaves internal active |
| Selection.ResolveInternalOffNetwork | Sources/Shared/API/ConnectionInfo.swift:200-212 | off the network the getter ends on internal iff internal was active and had a URL, and neither a cloud remote UI nor an external URL exists |
| Selection.SettleIsStable | Sources/Shared/API/ConnectionInfo.swift:198-239 | a type the getter settles on is settled on again once active |
| Selection.ResolveStable | Sources/Shared/API/ConnectionInfo.swift:197-244 | a second read returns the same outcome and switches nothing |
| Selection.ResolveSwitches | Sources/Shared/API/ConnectionInfo.swift:87-101 | one read saves at most twice, and saves at all iff it changes the active type |
| Selection.ResolvedURLIsKnown | Sources/Shared/API/ConnectionInfo.swift:476-501 | every URL the getter returns passes `checkURLMatches` and has a `getURLType` |
| Selection.WebhookPath | Sources/Shared/API/ConnectionInfo.swift:299-301 | a relative path, longer than the webhook ID, that ends in the webhook ID |
| Selection.APILookup | Sources/Shared/API/ConnectionInfo.swift:287-289 | a returned API URL passes `checkURLMatches`; a failure names the active type, which has no URL |
| Selection.WebhookLookup | Sources/Shared/API/ConnectionInfo.swift:291-297 | outside the cloudhook case a returned URL passes `checkURLMatches`; a failure happens only outside it, and names the active type, which has no URL |
| Selection.APIURLComposition | Sources/Shared/API/ConnectionInfo.swift:287-289 | the API URL is the active URL with "/api" appended, with the same switches |
| Selection.WebhookURLComposition | Sources/Shared/API/ConnectionInfo.swift:291-301 | with the cloud on and a cloudhook URL it is that URL, whatever is active and without switching; otherwise the active URL with "/api/webhook/" and the webhook ID appended |
| Selection.AdaptLookup | Sources/Shared/API/ConnectionInfo.swift:414-429 | the request has a URL afterwards iff it had one before; a failure happens only for a request with a URL, and names the active type, which has no URL |
| Selection.AdaptAPITargetsAdaptedURL | Sources/Shared/API/ConnectionInfo.swift:416-428 | an API request is sent to `adapting(activeURL, current)` when that exists, and keeps its own URL otherwise; the getter's failure propagates |
| Selection.AdaptWebhookTargetsWebhookURL | Sources/Shared/API/ConnectionInfo.swift:414-429 | a webhook request leaves `adapt` addressed to the webhook URL, whether or not it was rewritten; the getter's failure propagates |
| Selection.AdaptWithoutURL | Sources/Shared/API/ConnectionInfo.swift:414-415 | a request without a URL is returned as is, without consulting the getter |
| Transitions.InitialActiveType | Sources/Shared/API/ConnectionInfo.swift:114-122 | `init` chooses internal iff an internal URL exists and the device is on the internal network; it chooses the remote UI only with the cloud on and a remote UI URL |
| Transitions.InitialSelection | Sources/Shared/API/ConnectionInfo.swift:114-122 | `init` picks internal iff an internal URL exists and the device is on the internal network, otherwise external, never remote UI |
| Transitions.AfterSetAddress | Sources/Shared/API/ConnectionInfo.swift:313-348 | `address(for: t)` becomes the new address; the other two URLs, webhook ID and secret, cloudhook URL, SSIDs and `useCloud` are unchanged |
| Transitions.SetInternalOnNetworkActivates | Sources/Shared/API/ConnectionInfo.swift:323-325 | storing an internal URL on the internal network makes internal active, whatever was active |
| Transitions.SetOtherAddressKeepsInternal | Sources/Shared/API/ConnectionInfo.swift:326-348 | on the network with an internal URL, storing any other address keeps internal active |
| Transitions.SetAddressMovesToConfigured | Sources/Shared/API/ConnectionInfo.swift:313-348 | when `setAddress` moves the active type, the new type has a URL, except when clearing the internal URL |
| Transitions.SetAddressMovesTo | Sources/Shared/API/ConnectionInfo.swift:313-348 | the "moves to" rows: clearing internal with a cloud remote UI selects it; setting external while internal is not active selects external; setting the remote UI with the cloud on while internal is not active selects it; clearing external or remote UI selects internal on the network, else the remaining qualifying type |
| Transitions.ClearInternalSelectsExternal | Sources/Shared/API/ConnectionInfo.swift:317-322 | clearing the internal URL without a cloud remote UI selects external, even without an external URL |
| Transitions.SetAddressLeavesActive | Sources/Shared/API/ConnectionInfo.swift:326-348 | the "left unchanged" rows: external or remote UI cleared with no alternative; remote UI set while internal is active or the cloud is off; internal set off the network; external set while internal is active |
| Transitions.SetAddressIdempotent | Sources/Shared/API/ConnectionInfo.swift:313-348 | storing the same address twice equals storing it once |
| Transitions.SetPresentAddressAvoidsFailure | Sources/Shared/API/ConnectionInfo.swift:313-348 | after storing a present URL, the getter cannot fail, given the cloud on for the remote UI and the network for internal |
| Transitions.SetInternalOffNetworkStillFails | Sources/Shared/API/ConnectionInfo.swift:315-325 | off the network, storing an internal URL while an external type without URL is active leaves the getter failing |
| Transitions.AfterUseCloud | Sources/Shared/API/ConnectionInfo.swift:66-85 | only `useCloud` and the active type change; the active type changes only on a real change, and moves to internal only when it has a URL on the internal network |
| Transitions.UseCloudSelection | Sources/Shared/API/ConnectionInfo.swift:66-85 | a real change selects internal iff it has a URL and the network holds, else remote UI when turned on, external when turned off, unchecked; nothing else changes |
| Transitions.UseCloudUnchanged | Sources/Shared/API/ConnectionInfo.swift:66-68 | assigning the current value changes nothing |
| Transitions.UseCloudToggleOffNetwork | Sources/Shared/API/ConnectionInfo.swift:66-85 | off the network, on selects remote UI, and on-then-off ends on external with all else as before |
| Transitions.UseCloudOnWithoutRemoteUI | Sources/Shared/API/ConnectionInfo.swift:71-76 | turning the cloud on without a remote UI URL selects it anyway; the next read falls back to external or fails |
| Failover.Retry | Sources/Shared/API/ConnectionInfo.swift:437-472 | a retry always switches to a different type that has a URL; no retry leaves the active type unchanged |
| Failover.RetryExactly | Sources/Shared/API/ConnectionInfo.swift:437-472 | retry iff a transport failure of the active remote UI URL or any failure of the active internal URL, and an alternative exists |
| Failover.RetryThenResolves | Sources/Shared/API/ConnectionInfo.swift:451-469 | after a retry decision the getter succeeds |
| Invariants.OffNetworkNeverSelectsInternal | Sources/Shared/API/ConnectionInfo.swift:361-364 | off the network, the getter, `setAddress`, `useCloud` and the retry never switch to internal |
| Scenarios.AtHome | Sources/Shared/API/ConnectionInfo.swift:114-115 | on the home Wi-Fi, `http://10.0.0.5:8123/` is chosen and read as `http://10.0.0.5:8123` |
| Scenarios.AwayFromHome | Sources/Shared/API/ConnectionInfo.swift:200-210 | set up at home, read on another Wi-Fi: one switch from internal to external, and the external URL is returned without its trailing slash |
| Scenarios.BackHomeStillFails | Sources/Shared/API/ConnectionInfo.swift:233-246 | set up away from home with only an internal URL, external is active; back on the home Wi-Fi every read still fails |
| Scenarios.RemoteUIOnNetworkStillFails | Sources/Shared/API/ConnectionInfo.swift:222-246 | with the remote UI active and no remote UI or external URL, reads fail on the internal network despite an internal URL |
| Scenarios.RelayDown | Sources/Shared/API/ConnectionInfo.swift:442-459 | a transport failure on the relay without internal URL switches to external and retries |
| Scenarios.NothingConfigured | Sources/Shared/API/ConnectionInfo.swift:240-246 | with no URL at all the getter reports failure |
| Connection.ConnectionInfo.constructor | Sources/Shared/API/ConnectionInfo.swift:104-123 | stores the arguments, `useCloud` false, the initial active type; no save, no report |
| Connection.ConnectionInfo.SetExternalURL | Sources/Shared/API/ConnectionInfo.swift:20-27 | saves iff the value changes; reports "externalURL" iff it changes to a present URL |
| Connection.ConnectionInfo.SetInternalURL | Sources/Shared/API/ConnectionInfo.swift:28-33 | saves iff the value changes |
| Connection.ConnectionInfo.SetRemoteUIURL | Sources/Shared/API/ConnectionInfo.swift:34-41 | saves iff the value changes; reports "remoteUI" iff it changes to a present URL |
| Connection.ConnectionInfo.SetWebhookID | Sources/Shared/API/ConnectionInfo.swift:42-47 | saves iff the value changes |
| Connection.ConnectionInfo.SetWebhookSecret | Sources/Shared/API/ConnectionInfo.swift:48-53 | saves iff the value changes |
| Connection.ConnectionInfo.SetCloudhookURL | Sources/Shared/API/ConnectionInfo.swift:54-59 | saves iff the value changes |
| Connection.ConnectionInfo.SetInternalSSIDs | Sources/Shared/API/ConnectionInfo.swift:60-65 | saves iff the value changes |
| Connection.ConnectionInfo.SetActiveURLType | Sources/Shared/API/ConnectionInfo.swift:87-101 | saves iff the type changes |
| Connection.ConnectionInfo.SetUseCloud | Sources/Shared/API/ConnectionInfo.swift:66-85 | new state is `AfterUseCloud`; no save on an equal value, else one save plus one more if the active type changed |
| Connection.ConnectionInfo.ActiveURL | Sources/Shared/API/ConnectionInfo.swift:197-284 | returns `Resolve`'s outcome, leaves its final type active, changes nothing else and saves once per switch |
| Connection.ConnectionInfo.ActiveAPIURL | Sources/Shared/API/ConnectionInfo.swift:287-289 | returns the API URL of `APILookup` with the getter's side effects |
| Connection.ConnectionInfo.WebhookURL | Sources/Shared/API/ConnectionInfo.swift:291-297 | returns `WebhookLookup`'s URL; the cloudhook case touches nothing |
| Connection.ConnectionInfo.SetAddress | Sources/Shared/API/ConnectionInfo.swift:313-349 | new state is `AfterSetAddress`; saves once for a changed URL and once for a changed type; reports per the URL setters |
| Connection.ConnectionInfo.AdaptAPIURL | Sources/Shared/API/ConnectionInfo.swift:409-411 | the existing URL moved onto the active URL, with the getter's side effects |
| Connection.ConnectionInfo.Adapt | Sources/Shared/API/ConnectionInfo.swift:414-429 | the request URL afterwards is `AdaptLookup`'s, with the getter's side effects |
| Connection.ConnectionInfo.ShouldRetry | Sources/Shared/API/ConnectionInfo.swift:432-473 | answers `Retry`'s decision, leaves its type active, and saves iff it retries |

## Left out

- The failure branch's user interface and process control are not modelled: the alert, the window, the main-queue dispatch, `exit(1)`, `fatalError` and the placeholder `http://somethingbroke.fake`. The getter returns `Err(activeURLType)` there. Callers (`activeAPIURL`, `webhookURL`, `adapt`) pass that error on instead of using the placeholder.
- Platform lookups of the network identity are left out: `CurrentWiFiSSID`, `CurrentWiFiBSSID` and `hasWiFi`, with the simulator (always on the network) and watchOS branches of `isOnInternalNetwork`. The current SSID is a parameter, held fixed during one operation.
- The settings store, the crash reporter and the log are external sinks. A save is a ghost counter (`saveCount`). A crash-reporter call is an entry in the ghost `connectionMethods`. Log lines are no-ops. That includes the `activeURLType` observer's message, which reads `activeURL` and could re-enter the getter from inside the observer; that re-entry is not modelled.
- Sanitize: assumes `URLComponents` parses the URL and builds it again. The fallbacks that return the URL unchanged when either step fails are not modelled.
- `appendingPathComponent` is reduced to joining paths with one '/'. Percent-encoding, queries and fragments are not modelled.
- URL equality is equality of the (scheme, host, port, path) record.
- Endpoints.OnInternalNetwork: SSIDs are compared as exact character sequences, not up to the Unicode canonical equivalence of Swift's `String` `==`. The same holds for the changed-value guards of `webhookID`, `webhookSecret` and `internalSSIDs` (`Connection.ConnectionInfo.SetWebhookID`, `SetWebhookSecret`, `SetInternalSSIDs`). Two canonically equivalent but differently encoded names count as different here.
- `URL.adapting(url:)` is not part of this model. It is the function parameter `adapting`, and the properties hold for any such function.
- Alamofire's `SessionManager` and `Request` become the request's optional URL. The `NSURLErrorDomain` test becomes the `ErrorKind` value `Transport`.
- `Codable` decoding and encoding (`init(from:)`, with `useCloud` defaulting to `false`) are not modelled. Neither are the `description` and `debugDescription` strings.
- There is no concurrency in the source, and every operation is modelled as sequential.
