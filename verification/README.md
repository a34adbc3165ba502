# Verified model of the LXD Management API

The API is a FastAPI service in front of an LXD server. Most of it passes requests through; this
project models the parts that hold state or run concurrently, and proves properties of them for
all inputs, all runs and all interleavings.

- **Device edits** (`Devices`, `DeviceProtocol`, `DeviceSchedules`, `DeviceRoutes`). Attaching or
  detaching a volume or a NIC reads an instance's device map, changes one key of a copy, and
  patches the copy back. Any number of requests may be between their read and their patch. The
  main result says exactly which schedules are safe: the protocol ends like atomic edits, for
  every choice of edits and devices, if and only if no request patches an instance inside another
  request's read-to-patch window on it.
- **Sessions** (`Tokens`, `Sessions`, `TokenSafety`, `UserSafety`, `Verdicts`, `RoleClaims`,
  `AuthService`).
  Users, tokens, role checks, registration and seeding are one state machine. Tokens are symbolic:
  a client presents a token the server has signed, by its position, or one that does not verify.
  Registration and seeding are two steps each, so that other requests can come in between.
- **WebSocket proxies** (`Relay`, `Connection`, `SocketRoutes`, `Handshakes`). The handshake, the
  POST, and the two pumps under `gather` are interleaved with closes and failures at any point.
- **Operations** (`LxdClient`, `References`, `Lifecycle`, `Waiting`). Envelope normalisation, error
  mapping, operation references, and the routes with `?wait=true`, over LXD's operation life cycle.
- **Paths and pages** (`Paths`, `Pages`). The LXD paths the routes build, and limit/offset slicing.

`Errors` and `Wrappers` are shared. Handlers that change state step by step are methods over a
class; each is proved against the step function of its machine, and the lemmas speak of those
functions. The outcomes of awaits (what LXD answers, what other requests leave behind, what a
socket does next) are parameters of these methods, so a contract holds for every outcome.

## Assumptions

- A PATCH of an instance replaces its `devices` field. The code relies on this: it fetches the
  instance first to keep the other devices, and detaching works by leaving a key out. LXD's own
  merge rule is not in the repository.
- In the concurrent protocol a successful GET carries the instance's devices. The handlers are also
  proved for a reply without them (`DeviceRoutes.FetchPreservesOthers`).
- An instance is identified by the project and the name of the request; how LXD resolves a missing
  project is not modelled. Instances are neither created nor deleted during a run.
- Tokens cannot be forged, and a password verifies against the hash made from it and no other.
- A PATCH that LXD answers with an error has changed nothing; one whose reply is lost may have been
  made, and is a case of its own (`DeviceRoutes.PatchAnswer`).
- LXD answers an unbounded wait with an error, or with the operation that the wait's URL addresses
  in the terminal state it has reached (`Waiting.HonestWait`); what follows without this is
  `Waiting.SuccessReportedExactly`. An operation in a terminal state stays in it (`Lifecycle.Next`).
- Paths are the URL strings handed to the HTTP library. What it makes of `.` and `..` parts and of
  percent escapes in names is not part of this model.
- A send on the client's socket raises once the client's disconnect has been received or the handler
  has closed the socket, and a send to LXD raises once LXD's stream has ended. Frames may still arrive
  from LXD, and be delivered, between the failure of a relay and the handler's close.

## Where the code and its documentation differ

- storage.py says that fetching first preserves existing devices. Two overlapping requests on one
  instance can still lose one of their updates, so that no order of the edits explains the result
  (`DeviceSchedules.SerializableIffDisjointWindows`, reached by `DeviceSchedules.AnyTwoCanOverlap`,
  and step by step `DeviceProtocol.PatchIsAtomic`). The key of a volume does not contain its pool,
  so two volumes of one name in different pools displace each other (`Devices.FirstVolumeSurvives`),
  and attach followed by detach restores the map only if the key was fresh
  (`Devices.DetachUndoesAttach`).
- `operation_id_from_url` is not idempotent on every string: `"///"` gives the empty string, and
  that gives nothing (`References.ExtractionIsIdempotent`).
- `?wait=true` is documented to block until the action completes. An answer that is not an operation,
  or an operation still running, is reported as a success (`Waiting.SuccessReportedExactly`). An answer
  that names no operation, such as an async one without metadata, is not waited for
  (`Waiting.WaitNeedsIdentifier`). An identifier with a `/`, `?` or `#` in it puts the wait on another
  resource (`Waiting.ReportsNeedPlainNames`). The wait is also
  not unbounded: the client applies its default timeout, which the model admits as `Unreachable`.
- The exec proxy is documented to run until either side closes. `gather` waits for both pumps, so it
  stays whichever side leaves first (`Connection.RelayEndsExactly`, `Connection.ClientLeavesFirst`,
  `Connection.LxdLeavesFirst`): until LXD's next frame or end if the client has left, and until the
  client's next message with content or disconnect if LXD has (`Connection.ClientGoneThenEnds`,
  `Connection.LxdGoneThenEnds`). It does not stop the downward pump when the other one raises.
- An error envelope sent with status 200 and no code of its own is answered with status 200
  (`LxdClient.ErrorsLookLikeErrors`).
- Seeding is documented as idempotent. It is when run in sequence; of two workers that look before
  either inserts, the later one fails to start (`UserSafety.SeedingIsIdempotent`,
  `UserSafety.LateSeederCrashes`, `UserSafety.TwoSeedersCrash`).
- Extra claims given to `_create_token` can replace the token's kind, subject or expiry
  (`Tokens.ExtraClaimsCanRebind`); the callers in the repository pass a role only.
- The WebSocket guard does not look for an empty subject and the REST guard does
  (`TokenSafety.GuardsAgree`). No route creates a user with an empty name, so the guards differ in
  a run only if such a row was inserted directly (`TokenSafety.GuardsAgreeInEveryRun`).
- Server info is documented as `GET /1.0` and requests `/`. The operations relay is documented to
  subscribe to `/1.0/events?type=operation`; it appends `&type=operation` to a URL without a query, so
  the path is `/1.0/events&type=operation` (`Paths.NothingAsksForEvents`).

## Model

| member | source | states |
|---|---|---|
| Devices.DefaultKeysSeparate | app/api/v1/routes/storage.py:378-378 | default volume and NIC keys are injective in the name and never coincide |
| Devices.FirstVolumeSurvives | app/api/v1/routes/storage.py:377-384 | of two volume attachments in sequence the first survives exactly when the names differ or the attachments are the same; the pool does not matter |
| Devices.NicReachesVolume | app/api/v1/routes/networks.py:227-227 | a NIC route touches a volume's device exactly when the caller names that device |
| Devices.DetachUndoesAttach | app/api/v1/routes/storage.py:426-427 | detaching after attaching restores the map exactly when the key was fresh |
| Devices.EditsAreIdempotent | app/api/v1/routes/networks.py:273-274 | repeating an edit changes nothing |
| Devices.EditsCommute | app/api/v1/routes/networks.py:227-232 | two edits commute on every map exactly when their keys differ or their outcomes agree |
| DeviceProtocol.NoThinAir | app/api/v1/routes/storage.py:373-391 | in every reachable state each device of an instance or of a copy in flight is an initial one or the one built by an issued attach request |
| DeviceProtocol.UntargetedKeepsValue | app/api/v1/routes/storage.py:351-437 | in every interleaving a key no issued request names keeps its value, and an instance none names is unchanged |
| DeviceProtocol.PatchIsAtomic | app/api/v1/routes/networks.py:202-242 | a patch acts as the atomic edit exactly when the instance, away from the edited key, still holds what was read |
| DeviceSchedules.DisjointWindowsAreAtomic | app/api/v1/routes/storage.py:366-391 | with disjoint windows every prefix of a run equals the atomic edits applied in patch order |
| DeviceSchedules.OverlapLosesAnUpdate | app/api/v1/routes/networks.py:262-281 | with an overlapping window there are edits for which no order of atomic edits ends like the schedule |
| DeviceSchedules.SerializableIffDisjointWindows | app/api/v1/routes/storage.py:365-391 | whatever is edited some order of atomic edits explains a schedule, and patch order does, exactly when no patch falls in another request's window on the instance |
| DeviceSchedules.AnyTwoCanOverlap | app/api/v1/routes/storage.py:366-391 | any two requests on one instance have a legal overlapping schedule that ends as if the first had not been made |
| DeviceRoutes.AttachVolume | app/api/v1/routes/storage.py:351-394 | the handler's effect on the store and its reply, reference or error, for every LXD answer and every interference between GET and PATCH |
| DeviceRoutes.DetachVolume | app/api/v1/routes/storage.py:402-437 | the same for detaching a volume |
| DeviceRoutes.AttachNic | app/api/v1/routes/networks.py:202-242 | the same for attaching a NIC under a chosen or default key |
| DeviceRoutes.DetachNic | app/api/v1/routes/networks.py:250-284 | the same for detaching a NIC |
| DeviceRoutes.HandlerIsReadThenPatch | app/api/v1/routes/storage.py:366-394 | a handler is a read step and a patch step of the protocol, or their failing variants |
| DeviceRoutes.FetchPreservesOthers | app/api/v1/routes/storage.py:365-375 | undisturbed, the other devices are kept exactly when the reply carried them or there were none |
| DeviceRoutes.AttachDetachRestores | app/api/v1/routes/storage.py:346-437 | the attach handler and then the detach handler leave the whole store as it was exactly when the key was fresh, whatever the client learns of the two patches |
| DeviceRoutes.AttachVolumeEffect | app/api/v1/routes/storage.py:373-391 | attaching volume v sets exactly `vol_` + v, to a disk of that pool and volume, whatever other requests do meanwhile |
| DeviceRoutes.DetachVolumeEffect | app/api/v1/routes/storage.py:422-434 | detaching volume v removes exactly `vol_` + v |
| DeviceRoutes.AttachNicEffect | app/api/v1/routes/networks.py:223-239 | attaching a NIC sets exactly the device of the name given, or else `nic_` + network, to a NIC of that network and name |
| DeviceRoutes.DetachNicEffect | app/api/v1/routes/networks.py:269-281 | detaching a NIC removes exactly that device |
| DeviceRoutes.VolumeRoundTrip | app/api/v1/routes/storage.py:378-427 | attaching and detaching volume v, in whatever pools, restores the store exactly when `vol_` + v was fresh |
| DeviceRoutes.NicRoundTrip | app/api/v1/routes/networks.py:227-274 | the same for a NIC under one network and one device name |
| DeviceRoutes.ErrorsChangeNothing | app/api/v1/routes/storage.py:366-394 | which failures leave the store alone, and the reply for each |
| Tokens.CreateToken | app/core/security.py:73-98 | the payload signed, as built up claim by claim |
| Tokens.ExtraClaimsCanRebind | app/core/security.py:90-98 | kind, subject and lifetime are as asked exactly when no extra claim rebinds them, an `exp` in numeric text counting as its number |
| Tokens.NumericTextExactly | app/core/security.py:113-121 | an `exp` in text stands for a number exactly when it is digits after an optional sign |
| Tokens.KindsAreExclusive | app/core/security.py:101-110 | the access and refresh constructors make tokens of one kind and not the other |
| Sessions.GuardAdmitsExactly | app/api/deps.py:91-101 | the role guard as a table over stored roles, unknown roles being viewers |
| Sessions.PairClaims | app/api/v1/routes/auth.py:38-46 | every claim of a pair, and that its tokens decode for exactly 60 seconds a minute and 86400 a day configured |
| TokenSafety.AcceptedExactly | app/api/deps.py:51-73 | in any run exactly live access tokens of active users pass the guards, and exactly live refresh tokens of active users are exchanged |
| Verdicts.GuardVerdict | app/api/deps.py:35-101 | in any run the verdict on a request: 401 without a live access token of an active user, 403 when the stored role does not suffice, else admitted in that name |
| Verdicts.LoginVerdict | app/api/v1/routes/auth.py:94-105 | in any run a login succeeds exactly for the name and password of an active row, and is a 401 else |
| Verdicts.RenewVerdict | app/api/v1/routes/auth.py:118-134 | in any run a refresh succeeds exactly for a live refresh token of an active row, in its name, and is a 401 else |
| Verdicts.RegisterVerdict | app/api/v1/routes/auth.py:56-79 | in any run a registration is a 401, 403 or 422 in exactly these cases, and else is on its way with the role asked for |
| Verdicts.CommitVerdict | app/db/crud.py:26-42 | in any run it then is a 409 without a row exactly when the name is taken, and else the new last row |
| Verdicts.GrantSigns | app/api/v1/routes/auth.py:38-46 | in any run a grant signs two tokens with these claims, the access token with the stored role |
| Verdicts.GrantLasts | app/api/v1/routes/auth.py:42-46 | in any run the access token granted is accepted exactly until `expires_in` seconds have passed, while its user is active |
| Handshakes.HandshakeDecides | app/api/v1/routes/instances.py:416-436 | in any run of an endpoint the first action is 4401, 4403 or the accept as the tokens and rows of that moment say: operators and admins on exec and console, anyone active on events |
| TokenSafety.GuardsAgree | app/api/deps.py:130-154 | the REST and WebSocket guards resolve alike except on an access token without a subject while an active user has an empty name |
| TokenSafety.NoRouteMakesAnEmptyName | app/schemas/auth.py:15-15 | in every run a row with an empty name was there from the start |
| TokenSafety.GuardsAgreeInEveryRun | app/api/deps.py:60-68 | the two guards agree on every token in every run exactly when the table does not start with an active user whose name is empty |
| TokenSafety.TokenLineage | app/api/v1/routes/auth.py:88-134 | every token descends through refreshes, each within the refresh lifetime, from a successful login of its subject |
| TokenSafety.LineageClock | app/core/security.py:84-95 | along k refreshes the clock advances at most k times 86400 seconds a refresh day |
| TokenSafety.AcceptedAccessIsBounded | app/api/v1/routes/auth.py:114-134 | a token accepted at t descends from a login at t0 with t at most t0 plus k refresh lifetimes plus one access lifetime, in seconds of the settings |
| UserSafety.RowsArePreserved | app/db/crud.py:26-42 | in every run usernames stay unique and existing rows keep place, name, hash and role |
| UserSafety.EveryRowIsAccounted | app/api/v1/routes/auth.py:56-79 | every row is initial, seeded, or registered by a valid request admitted for a caller who was then an active admin |
| UserSafety.TableIsFrozen | app/db/seed.py:21-34 | with seeding blank and no active admin the users and their names are the same for ever |
| UserSafety.DeactivationIsFinal | app/api/deps.py:70-73 | after a deactivation no request is admitted and no token granted in that name again |
| UserSafety.OnlyTheNamedIsDeactivated | app/db/models.py:34-35 | in any run a user becomes inactive only by a deactivation in that name |
| UserSafety.SeedingExactly | app/db/seed.py:21-34 | seeding adds one active admin of the configured name and password, unless either is blank or the name is taken |
| UserSafety.AdmissionOutlivesDeactivation | app/api/v1/routes/auth.py:60-79 | an admitted registration commits after its caller's deactivation, unless the name is taken |
| UserSafety.SeedingIsIdempotent | app/db/seed.py:28-33 | seeding in sequence twice equals seeding once and leaves an existing user alone |
| UserSafety.LateSeederCrashes | app/db/seed.py:28-33 | of concurrent seeders one fails exactly when the name is already there, and there is one row of it afterwards |
| UserSafety.TwoSeedersCrash | app/db/seed.py:28-33 | from every table without the seed name two workers that both look first reach that failure, and one row is made |
| RoleClaims.RoleClaimsDecideNothing | app/api/deps.py:91-101 | runs that differ only in role claims give the same verdict at every step |
| AuthService.Server.CreateUser | app/db/crud.py:26-42 | the row is added, or rolled back when the name exists |
| AuthService.Server.SeedAdmin | app/db/seed.py:21-34 | the check and the insert are the two seeding steps, with any interference in between |
| AuthService.Server.Register | app/api/v1/routes/auth.py:56-79 | guard and insert are the two registration steps; a malformed name or password is a 422 and a taken name a 409 |
| AuthService.Server.MakeTokenPair | app/api/v1/routes/auth.py:38-46 | an access token with the stored role and a refresh token are signed, in that order, and `expires_in` announced |
| AuthService.Server.Login | app/api/v1/routes/auth.py:88-105 | the login step: a pair for an active user with that password, else 401 and no change |
| AuthService.Server.Refresh | app/api/v1/routes/auth.py:114-134 | the refresh step: a pair for the active subject of a live refresh token, else 401 and no change |
| Relay.ClientToLxd | app/api/v1/routes/instances.py:517-527 | the loop conserves the client's non-empty contents, in order |
| Relay.LxdToClient | app/api/v1/routes/instances.py:529-537 | the loop conserves LXD's frames, in order and kind |
| Relay.UpStepConserves | app/api/v1/routes/instances.py:520-525 | contents received are the frames sent and the one in hand; on the events endpoint nothing is sent |
| Connection.HandshakeOrder | app/api/v1/routes/instances.py:416-466 | accept first and once, POST second and once, reports and frames only after them, in every run |
| Connection.NothingAfterClose | app/api/v1/routes/instances.py:540-545 | in every run an explicit close is the last thing the handler does, so there is at most one |
| Connection.AcceptedOnlyWithRole | app/api/v1/routes/instances.py:566-585 | a socket is accepted only for an active user, and on exec and console only for one stored as an operator or an admin |
| Connection.RelayKeepsOrder | app/api/v1/routes/instances.py:516-539 | in every interleaving frames are passed on in order, complete but for at most one in hand; the events relay sends LXD nothing |
| Connection.RelaySendsContent | app/api/v1/routes/instances.py:520-525 | in every run of exec or console the frames sent to LXD are those of the messages with a non-empty text or bytes, one each, in order and kind |
| Connection.MessageGoesUp | app/api/v1/routes/instances.py:520-525 | a message's non-empty text, or else its bytes, are sent to LXD |
| Connection.FrameGoesDown | app/api/v1/routes/instances.py:531-535 | a frame of LXD's is delivered to a client still there |
| Connection.UpwardFailureCloses | app/api/v1/routes/instances.py:539-545 | an exception upwards is reported and closed with 1011, even if the report fails |
| Connection.OrdinaryEnds | app/api/v1/routes/instances.py:521-539 | the ordinary ends of both pumps, in either order, finish the handler without a close |
| Connection.HandlerEnds | app/api/v1/routes/instances.py:515-545 | a relay ends with both pumps ended and no close, or with the upward pump raised and a close with 1011 |
| Connection.RelayEndsExactly | app/api/v1/routes/instances.py:515-540 | a relay can be left exactly when the upward pump has raised or both pumps have ended |
| Connection.ClientLeavesFirst | app/api/v1/routes/operations.py:221-242 | on every endpoint a run in which the client has disconnected and the next event, whatever it is, does not end the relay |
| Connection.LxdLeavesFirst | app/api/v1/routes/instances.py:517-539 | on every endpoint a run in which LXD's stream has ended and the next event, whatever it is, does not end the relay |
| Connection.NothingAfterDisconnect | app/api/v1/routes/instances.py:517-539 | in every run, once the client's disconnect is received the handler sends, reports and closes nothing |
| Connection.NoFramesAfterStreamEnd | app/api/v1/routes/instances.py:524-537 | in every run, once LXD's stream has ended no frame is sent either way |
| Connection.ClientGoneThenEnds | app/api/v1/routes/instances.py:529-539 | with the client gone the handler ends with LXD's stream, or with its next frame, which is dropped |
| Connection.LxdGoneThenEnds | app/api/v1/routes/instances.py:517-545 | with LXD's stream ended the handler returns on a disconnect, closes with 1011 on the next content to forward, and stays on any other message |
| SocketRoutes.Admit | app/api/v1/routes/instances.py:416-436 | token and role check: the close code, or the accept |
| SocketRoutes.ProxyExecWs | app/api/v1/routes/instances.py:469-545 | the proxy leaves the trace of the connection machine for every outcome, frames delivered after a pump has raised included |
| SocketRoutes.ExecWs | app/api/v1/routes/instances.py:392-466 | the exec and console handlers leave the trace of the connection machine for every outcome |
| SocketRoutes.OperationsWs | app/api/v1/routes/operations.py:160-252 | the events handler leaves the trace of the connection machine for every outcome |
| SocketRoutes.HandledIsARun | app/api/v1/routes/instances.py:552-609 | what a handler does is a run of the connection machine |
| SocketRoutes.HandlerOutcome | app/api/v1/routes/instances.py:416-545 | what a handler does for each outcome of its awaits: refused, without a secret, without a connection, or in the relay |
| SocketRoutes.RelayOutcome | app/api/v1/routes/instances.py:515-545 | how a relay ends the handler, with nothing but late frames around the report and the close |
| LxdClient.Client.Transport | app/services/lxd_client.py:137-142 | the cached transport is reused, one is built only when there is none, and it is not a closed one, closing and forgetting being one step here |
| LxdClient.Client.Close | app/services/lxd_client.py:144-148 | the current transport is closed and forgotten; without one nothing happens |
| LxdClient.Client.Request | app/services/lxd_client.py:180-256 | the URL requested and the normalised result, on an open transport |
| LxdClient.ErrorPipeline | app/services/lxd_client.py:218-256 | which responses raise, and the HTTP status each ends as |
| LxdClient.PayloadPassesThrough | app/services/lxd_client.py:228-256 | what reaches the caller for every other response |
| Errors.ClassifiedExactly | app/services/exceptions.py:77-87 | each exception class is raised for its own statuses only |
| LxdClient.ErrorsLookLikeErrors | app/services/lxd_client.py:240-244 | an error envelope is answered with an error status exactly when its effective code is zero or at least 400 |
| References.ReferenceRoundTrip | app/services/lxd_operations.py:31-53 | extracting from an operation URL gives back the id exactly when it is a non-empty single path part |
| References.ReferenceFields | app/services/lxd_operations.py:41-64 | every field of a reference built from a dictionary, LXD's own operation URL included, and when none can be built |
| References.ReferenceByText | app/services/lxd_operations.py:50-52 | the reference built from anything else |
| References.ExtractionIsIdempotent | app/services/lxd_operations.py:36-38 | extraction is idempotent exactly off the non-empty strings of slashes |
| References.ReferenceUrlsLeadBack | app/services/lxd_operations.py:41-64 | operation, poll and wait URL of a reference all lead back to its operation |
| References.GetOperation | app/api/v1/routes/operations.py:87-100 | serving a poll URL requests exactly the operation's own URL |
| Waiting.WaitForOperation | app/services/lxd_operations.py:67-100 | the URL and parameters of a wait, and what its answer is taken for |
| Waiting.WaitParamsExactly | app/services/lxd_operations.py:84-88 | which parameters a wait carries |
| Waiting.WaitOperation | app/api/v1/routes/operations.py:126-152 | the wait endpoint succeeds exactly on an answer that is not a failed or cancelled operation, with that answer or an empty dictionary, and is 500 on one |
| Waiting.SetInstanceState | app/api/v1/routes/instances.py:277-305 | the requests made and the answer given, for every answer of LXD |
| Waiting.CreateSnapshot | app/api/v1/routes/snapshots.py:79-104 | the same for creating a snapshot |
| Waiting.RestoreSnapshot | app/api/v1/routes/snapshots.py:173-202 | the same for restoring one |
| Waiting.CreateBackup | app/api/v1/routes/backups.py:77-107 | the same for creating a backup |
| Waiting.SuccessMeansSuccess | app/services/lxd_operations.py:76-100 | whatever operations LXD has, success is reported for an operation exactly when a wait was asked for, the reference names it, the wait for it was answered without error, and it has succeeded for good; never for one that failed or was cancelled |
| Waiting.ReportsNeedPlainNames | app/services/lxd_operations.py:90-91 | a success report can be trusted for an identifier exactly when it holds no `/`, `?` or `#` |
| Waiting.SuccessReportedExactly | app/services/lxd_operations.py:90-100 | without that contract, the exact condition for a success report, with two answers that are wrongly reported |
| Waiting.WaitNeedsIdentifier | app/api/v1/routes/snapshots.py:97-104 | a route asked to wait accepts without waiting exactly when LXD's answer names no operation |
| Waiting.NoWaitNoReport | app/api/v1/routes/instances.py:298-305 | a route not asked to wait makes one request and hands out the reference |
| Waiting.ErrorAnswers | app/api/v1/routes/snapshots.py:88-104 | when the answer is an error, and its status |
| Paths.SplitJoin | app/services/lxd_operations.py:38-38 | splitting at slashes undoes joining slash-free parts |
| Paths.JoinSplit | app/services/lxd_operations.py:38-38 | joining undoes splitting, and the parts are slash-free |
| Paths.PathIdentifies | app/services/lxd_client.py:207-207 | the requested path gives back the kind of resource and every name |
| Paths.ResourceUrls | app/services/lxd_client.py:207-207 | the URL of every request, part by part |
| Paths.NothingAsksForEvents | app/api/v1/routes/operations.py:198-200 | no route requests `/1.0/events`, whatever the names |
| Paths.PathsSeparateResources | app/api/v1/routes/images.py:176-176 | two requests share a path exactly when they address the same resource, or an image named aliases and the alias collection |
| Pages.PagesTileTheList | app/utils/pagination.py:31-45 | walking the pages gives back the list in ceil(total / limit) pages |
| Pages.PageContents | app/utils/pagination.py:36-45 | each page is full unless the list ends, holds the list's elements at its offset, and states its limit, offset and total |

## Left out

- Pass-through CRUD routes: they repeat one client call and the error mapping, and only their paths are modelled.
- Transport construction, TLS and the arguments of the WebSocket client library: foreign I/O.
- LxdClient.Client.Close: closing and forgetting the transport are one step here, so a request that starts between the two is not modelled.
- LxdClient.Client.Request: raw responses (log and backup downloads) bypass the envelope; query parameters and bodies are not recorded.
- bcrypt and JWT cryptography, and bcrypt's handling of long passwords.
- Dependency wiring: the admin guard on registration is modelled as its documentation states it.
- Rate limits, CORS, request ids and logging.
- Pydantic validation of bodies other than the username and password of a registration; page bounds are taken as validated. Stripping of the configured seed username.
- Row ids and creation times of users.
- Query parameters other than those of a wait.
- The lookup of the exec and console secrets in nested metadata: a reply carries a secret or not.
- The decoder's checks of claims other than `exp`, and numeric texts with blanks, underscores or digits other than 0 to 9.
- The exception texts passed on to clients; statuses and the fact of a report are modelled.
- Cancellation of handlers when the server shuts down.
