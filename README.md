# Jupyter React Kernel — a Dafny model

This project models the `Kernel` class of jupyter-react
(`packages/react/src/jupyter/kernel/Kernel.ts`), the object that binds a client to one
Jupyter kernel session. It covers:

- **Session-path resolution**: the path is kept in a cookie named
  `jupyter-react-kernel-path_<kernelSpecName>`; a missing or empty cookie makes the Kernel mint
  `kernel-<uuid>` and write it back before use.
- **Attach-or-create**: with a kernel model the Kernel refreshes the running sessions and
  connects to the first one whose path equals its own path, and never starts a session; without
  one it makes exactly one `startNew` at the resolved path.
- **The connection-status handler**: every status event is recorded; a `connected` event also
  copies the transport's client id and kernel id and resolves the readiness signal, which is
  created once by the constructor and never replaced.
- **Guards and formatting**: `execute` gives nothing without a kernel connection;
  `toString` renders `id:<id> - client_id:<clientId> - session_id:<sessionId> - path:<path>`.

Files and modules:

- `wrappers.dfy` (`Wrappers`): `Option`, standing for TypeScript's `undefined`/`null`.
- `services.dfy` (`Services`): the collaborators as the Kernel sees them. The cookie jar is a
  `CookieStore` over a `map<string, string>`. The server's answers are a `Server` value: the
  running sessions and what `startNew` yields for a request. `SessionManager` keeps a ghost log
  of the calls made to it. `Lookup` is `getCookie` over the jar, and `FirstWithPath` stands for
  lumino's `find` over the running sessions.
- `kernel_path.dfy` (`KernelPath`): the cookie name, path resolution and the cookie write.
- `kernel_status.dfy` (`KernelStatus`): the status handler as a transition function `Step`, its
  iteration `Run` over a sequence of events, and what holds after any sequence.
- `kernel_diagnostics.dfy` (`KernelDiagnostics`): the `toString` text, and `ReadDiagnostic`,
  which reads such a text back into its four fields.
- `kernel_session.dfy` (`KernelSession`): the `Kernel` class. It keeps the source's
  `_kernelName`, `_kernelType`, `_kernelSpecName`, `_path`, `_session`, `_sessionManager`,
  `_kernelConnection` (as `connection`), `_sessionId`, `_connectionStatus`, `_clientId` and
  `_id`. The promise `_ready` becomes `const ready: ReadySignal`, and `_readyResolve` is its
  `Resolve` method. `_info`, `_kernelManager`, `_kernelSpecManager` and `_serverSettings` have
  no field (see "Left out").
  Three fields stand for no source field:
  - `listening` records that the status listener has been connected (Kernel.ts:123);
  - the ghost `shutdownRequests` records the connections `shutdown` asked to shut down;
  - `disposed` records that `shutdown` disposed of the connection.
  `RequestKernel` and `OnStatusChange` change the fields in place. `Status()` is the part the
  status handler writes, and `OnStatusChange` is proved to act on it exactly as
  `KernelStatus.Step` does.

Awaits are taken as sequential steps. Status events are explicit calls
`OnStatusChange(StatusEvent(status, clientId, id))`, where the ids are what the transport
reports when the event is handled. The uuid is a parameter.

Behaviour of the code that a reader might not expect, kept as written:

- The attach branch compares each running session's path with `this._path`. That field is only
  assigned on the create branch (Kernel.ts:94), and `requestKernel` runs once, from the
  constructor. So on this branch the path is still unset, no session matches, `_session` stays
  unset, and reading its `kernel` (Kernel.ts:111) throws. A Kernel built with a kernel model
  therefore never gets a connection, and `ready` never resolves
  (`KernelSession.Kernel.constructor`, `Services.UnsetPathMatchesNothing`). The model keeps
  this behaviour.
- `shutdown` dereferences `_session` with no guard, so before a session exists it throws. It
  also does not clear the connection field, so `execute` still hands out an executor on the
  disposed connection. It is neither "safe before connect" nor idempotent in the code.
- A stored path leads to `startNew` at that path, not to a search of the running sessions.
  Whether the server then reuses an existing session at that path is the server's
  business (`Server.startNew`).
- `_sessionId` is assigned as soon as the session has a kernel connection (Kernel.ts:120),
  whatever that connection's status. So the session id can be set while readiness is still
  pending, whereas the client id and kernel id are set only together with readiness
  (`KernelSession.AdoptedIdsAndReadiness`, `KernelStatus.RunKeepsIdsWithReady`).
- The connection status is the transport's `'connected' | 'connecting' | 'disconnected'`.

## Model

| member | source | states |
|---|---|---|
| `KernelPath.CookieName` | packages/react/src/jupyter/kernel/Kernel.ts:137-139 | the cookie name is exactly `jupyter-react-kernel-path`, then `_`, then the kernel-spec name |
| `KernelPath.CookieNameInjective` | packages/react/src/jupyter/kernel/Kernel.ts:22 | two kernel-spec names that share a cookie name are the same name |
| `KernelPath.ResolvePath` | packages/react/src/jupyter/kernel/Kernel.ts:89-94 | a non-empty stored value is reused as the path; a missing or empty one (`!path`) gives the minted path `kernel-<uuid>`; the path is never empty |
| `KernelPath.Persist` | packages/react/src/jupyter/kernel/Kernel.ts:90-93 | a minted path is written under the cookie name and every other cookie is left as it was; a reused path writes nothing |
| `KernelPath.ResolutionIsStable` | packages/react/src/jupyter/kernel/Kernel.ts:89-94 | after resolving and persisting, a later resolution under the same name reuses that path whatever uuid it is offered |
| `KernelPath.ResolutionIsolatedPerSpec` | packages/react/src/jupyter/kernel/Kernel.ts:137-139 | resolving the path for one kernel-spec name leaves the cookie of every other spec name unchanged |
| `Services.FirstWithPath` | packages/react/src/jupyter/kernel/Kernel.ts:82-84 | the result is the index of the first running session whose path equals the searched path, or none when no session's path equals it |
| `Services.UnsetPathMatchesNothing` | packages/react/src/jupyter/kernel/Kernel.ts:83 | a search with the path still unset finds no session |
| `Services.Lookup` | packages/react/src/jupyter/kernel/Kernel.ts:89 | the cookie read yields a value exactly when a cookie of that name exists, and then it is that cookie's value |
| `Services.CookieStore.Set` | packages/react/src/jupyter/kernel/Kernel.ts:92 | the cookie write stores the value under the name and changes nothing else |
| `Services.SessionManager.constructor` | packages/react/src/jupyter/kernel/Kernel.ts:73-78 | a new SessionManager, once ready, holds the server's running sessions and has had no calls |
| `Services.SessionManager.RefreshRunning` | packages/react/src/jupyter/kernel/Kernel.ts:81 | the running list is reloaded from the server and one refresh is logged |
| `Services.SessionManager.ConnectTo` | packages/react/src/jupyter/kernel/Kernel.ts:86 | connecting to a running session yields that session and logs the call |
| `Services.SessionManager.StartNew` | packages/react/src/jupyter/kernel/Kernel.ts:95-109 | the server's answer to the request is returned and the request is logged |
| `KernelStatus.Step` | packages/react/src/jupyter/kernel/Kernel.ts:112-118 | the status handler on one event: the recorded status is always overwritten with the event's; on `connected` the ids come from the transport and readiness is resolved; otherwise ids and readiness are unchanged |
| `KernelStatus.UnsetIdsWithReady` | packages/react/src/jupyter/kernel/Kernel.ts:25-27 | before any connection the client id and kernel id are unset and readiness is pending |
| `KernelStatus.StepKeepsIdsWithReady` | packages/react/src/jupyter/kernel/Kernel.ts:113-116 | the handler sets the ids in the same step that resolves readiness, so "ids set exactly when ready" is kept by every event |
| `KernelStatus.RunKeepsIdsWithReady` | packages/react/src/jupyter/kernel/Kernel.ts:123-129 | after any sequence of events from such a state, the client id and kernel id are set exactly when readiness is resolved |
| `KernelStatus.RunRecordsLastStatus` | packages/react/src/jupyter/kernel/Kernel.ts:124-128 | after a non-empty sequence of events the recorded status is that of the last event |
| `KernelStatus.RunIdsFollowLastConnected` | packages/react/src/jupyter/kernel/Kernel.ts:112-118 | after any sequence of events the client id and kernel id are those of the last `connected` event, or unchanged when none was `connected` |
| `KernelStatus.RunReadyIffConnected` | packages/react/src/jupyter/kernel/Kernel.ts:113-116 | readiness is resolved after a sequence of events if and only if it already was or some event was `connected` |
| `KernelStatus.ReadyStaysResolved` | packages/react/src/jupyter/kernel/Kernel.ts:125 | once resolved, readiness stays resolved whatever events follow, because the re-initialisation is commented out |
| `KernelStatus.ReadyResolvesAtFirstConnected` | packages/react/src/jupyter/kernel/Kernel.ts:114-116 | from a pending state, readiness is still pending just before the first `connected` event and resolved from it on |
| `KernelStatus.ReconnectKeepsReadyAndRefreshesIds` | packages/react/src/jupyter/kernel/Kernel.ts:123-129 | for connecting, connected, disconnected, connected: ready is resolved from the first `connected` on, and at the end the ids are those of the second `connected` |
| `KernelDiagnostics.Render` | packages/react/src/jupyter/kernel/Kernel.ts:204 | the diagnostic text is exactly `id:<id> - client_id:<clientId> - session_id:<sessionId> - path:<path>`, an unset field printing as `undefined` |
| `KernelDiagnostics.RenderReadsBack` | packages/react/src/jupyter/kernel/Kernel.ts:203-205 | the diagnostic text reads back as exactly its id, client id, session id and path when none contains a space |
| `KernelSession.ToStringReadsBack` | packages/react/src/jupyter/kernel/Kernel.ts:203-205 | a Kernel's `toString` reads back as its own id, client id, session id and path, with `undefined` for an unset field, when none of them contains a space |
| `KernelSession.Kernel.ToJSON` | packages/react/src/jupyter/kernel/Kernel.ts:193-201 | the serialisation carries the Kernel's current path, id, client id and session id, each unset until assigned; `kernelInfo` is left out |
| `KernelSession.Kernel.ToString` | packages/react/src/jupyter/kernel/Kernel.ts:203-205 | the text is the template over the Kernel's current id, client id, session id and path, an unset field printing as `undefined` |
| `KernelSession.AdoptedIdsAndReadiness` | packages/react/src/jupyter/kernel/Kernel.ts:119-122 | after a connection is adopted the ids are set exactly when readiness is resolved, while the session id is set whatever the first status; with a first status other than `connected`, the session id is known and readiness is pending |
| `KernelSession.ReadySignal.constructor` | packages/react/src/jupyter/kernel/Kernel.ts:63-67 | the readiness signal starts pending |
| `KernelSession.ReadySignal.Resolve` | packages/react/src/jupyter/kernel/Kernel.ts:116 | resolving leaves the signal resolved, whether or not it already was |
| `KernelSession.Kernel.constructor` | packages/react/src/jupyter/kernel/Kernel.ts:43-61 | a fresh readiness signal is created once, then the kernel request runs from an empty state; with a kernel model the Kernel ends with no path, no session, no connection and readiness pending |
| `KernelSession.Kernel.RequestKernel` | packages/react/src/jupyter/kernel/Kernel.ts:69-135 | with a kernel model: one refresh, a connection to the first running session at the current path if any, no `startNew`, cookies unchanged. Without one: the path is resolved or minted and persisted, and exactly one `startNew` is made with the Kernel's name, the path, its type and its spec name. The result is `Completed` exactly when a session was obtained, and `StartRejected` exactly when `startNew` was refused |
| `KernelSession.Kernel.StartSession` | packages/react/src/jupyter/kernel/Kernel.ts:88-110 | the path is the stored cookie if non-empty, else the minted one, written to the cookie jar; one `startNew` at that path, whose answer becomes the session |
| `KernelSession.Kernel.AdoptSession` | packages/react/src/jupyter/kernel/Kernel.ts:111-122 | the session's kernel becomes the connection; the session id, first status and listener are set only when there is a connection, the status and ids then being one handler step from unset |
| `KernelSession.Kernel.UpdateConnectionStatus` | packages/react/src/jupyter/kernel/Kernel.ts:112-118 | when the recorded status is `connected`, the ids are the transport's and readiness is resolved; otherwise ids and readiness are unchanged |
| `KernelSession.Kernel.OnStatusChange` | packages/react/src/jupyter/kernel/Kernel.ts:123-129 | with the listener connected, the status, ids and readiness change exactly as one `Step` of the handler; without one nothing changes; nothing else changes either way |
| `KernelSession.Kernel.Execute` | packages/react/src/jupyter/kernel/Kernel.ts:185-191 | an executor is returned if and only if a kernel connection is held, and it is bound to that connection and sent the given code |
| `KernelSession.Kernel.Shutdown` | packages/react/src/jupyter/kernel/Kernel.ts:207-210 | fails exactly when no session is set; otherwise the session's kernel, if any, is asked to shut down and the connection, if any, is disposed |

## Left out

- `KernelExecutor` is not part of this model: `execute` yields an opaque `Executor` naming
  the connection and the code. Reply correlation, reply ordering and abort markers are not
  modelled.
- Promises and scheduling: the awaits on `kernelManager.ready`, `sessionManager.ready`,
  `refreshRunning` and `startNew` are sequential steps. `ready` is a `ReadySignal` with a
  `resolved` flag, and the constructor runs the request to its end. The interleaving of status
  events with a request still in flight is not modelled.
- `KernelSpecManager`, `ServerConnection` settings, the `handleComms` option, the kernel `info`
  fetch with `toJSON`'s `kernelInfo` field, and the `console.log` calls are left out. They
  feed no decision of the Kernel.
- `getCookie` (`packages/react/src/utils/Utils`) is not part of this model. Reading a cookie is
  a map lookup, and the write at Kernel.ts:92 is a map update. Cookie-string parsing and
  browser cookie scoping are not modelled.
- `UUID.uuid4` is nondeterministic, so the uuid is a parameter.
- The server and transport are values: the running sessions, `startNew`'s answer, and the ids
  delivered with each status event. A session hands over its kernel connection as a
  `KernelHandle` snapshot: id, client id and the status at that moment.
- `KernelSession.Kernel.Shutdown` records the shutdown request and the disposal. It does not
  model what the library does with them: remote shutdown, or later events from a disposed
  connection.
- The plain getters (`clientId`, `id`, `sessionId`, `info`, `session`, `kernelManager`,
  `kernelSpecManager`, `sessionManager`, `path`, `connection`) return a field. The model
  reads the fields directly.
