# ProtonVPN backend state composition and core-log routing, in Dafny

This project models two pieces of the ProtonVPN Android app.

**The VPN backend's state machine** (`VpnBackend`). A backend holds three things:
- the tunnel driver's own protocol state (`vpnProtocolState`);
- an optional local-agent connection (`agent`), which is the authenticated control channel opened over a WireGuard tunnel, together with the coroutine jobs that create it (`agentConnectionJob`);
- the published state (`selfStateObservable`).

The model covers every entry point that moves these fields:
- the protocol-state setter;
- the native agent's `onState` callback;
- the body of an agent job, with its certificate fetch as an input that succeeds or fails;
- `closeAgentConnection`;
- the bounded `waitForDisconnect` poll.

The setter and `onState` publish through one composition rule, `getGlobalVpnState` / `handleLocalAgentStates`, which may close the agent or launch a job. The job body assigns `agent` without publishing, and the wait's final write sets the published state directly.

How it is built:
- `backend_spec.dfy` (module `BackendSpec`) states the machine on values. It has a `BackendState` record, one function per entry point, a `Step`/`Run` over external events, and the invariant `Settled`. `Settled` says: at most one job is in flight, and it is the one the field refers to; no job is pending while an agent is held, so a live agent is never replaced; no agent exists without WireGuard and a session; and no agent and no job exist whenever Disabled or Disconnecting is published.
- `backend.dfy` (module `Backend`) is the class `VpnBackend`. Its fields are updated in place, and each method is proved to move them as the matching `BackendSpec` function does. Each entry point (the protocol-state setter, `OnState`, `RunAgentJob`, `WaitForDisconnect`) is also proved to keep `Valid()`.

**The core-library log adapter** (`VpnCoreLogger`), in `core_logger.dfy`, is a pure decision table:
- each overload fixes a level;
- only the plain debug message is cut to 500 characters;
- the tags `API_REQUEST`, `API_RESPONSE` and `API_ERROR` become dedicated API events;
- each of the twelve listed tags gets its category (`API` or `SECURE_STORE`), and every other tag, including other constants of the same core libraries, gets `APP`.

Each call returns the Timber entry and the single Proton forward it produces.

`option.dfy` holds the `Option` type used for Kotlin's nullable values.

Two behaviours of the code worth noting:
- `waitForDisconnect` polls until Disabled is published (VpnBackend.kt line 149), not merely until the state leaves Disconnecting.
- `connectToLocalAgent` launches a new job without cancelling the one it replaces (lines 120-121). The code as written is `Launched(KeepPrevious, ...)` and is exhibited by `OrphanedAgentJob` and `OverwrittenAgentNeverClosed`. The class `VpnBackend` implements the corrected launch, `Launched(CancelPrevious, ...)`, which cancels the previous job first. See "Findings".

## Model

| member | source | states |
|---|---|---|
| BackendSpec.ComposedState | app/src/main/java/com/protonvpn/android/vpn/VpnBackend.kt:95-117 | The published state depends only on (protocol uses agent, tunnel state, agent sub-state). Without WireGuard+session, or for any tunnel state other than Connected, it is the tunnel state. For Connected it is Connected iff the agent reports `stateSoftJailed`, otherwise Connecting (also for null). |
| BackendSpec.Closed | app/src/main/java/com/protonvpn/android/vpn/VpnBackend.kt:139-143 | Closing clears the agent and records the close of the agent it held. It cancels the job the field refers to, and the field keeps its reference. Nothing else changes. |
| BackendSpec.Launched | app/src/main/java/com/protonvpn/android/vpn/VpnBackend.kt:120-121 | Exactly one new job is launched and becomes the referenced job. As written (`KeepPrevious`), the earlier job stays pending. Corrected (`CancelPrevious`), it is cancelled first. |
| BackendSpec.Composed | app/src/main/java/com/protonvpn/android/vpn/VpnBackend.kt:95-117 | The result is `ComposedState` of the inputs. With WireGuard+session, Disabled/Disconnecting close the agent and Connected without an agent launches one job. Every other case leaves the backend untouched. |
| BackendSpec.AfterProtocolStateSet | app/src/main/java/com/protonvpn/android/vpn/VpnBackend.kt:85-89 | The setter stores the value and publishes its composition with the agent's current sub-state. With WireGuard and a session, a terminal value closes the agent and cancels the referenced job exactly as `Closed` does, and Connected without an agent launches one job exactly as `Launched` does. In every other case, every field except the protocol and published states is unchanged. |
| BackendSpec.AfterAgentStateReported | app/src/main/java/com/protonvpn/android/vpn/VpnBackend.kt:80-82 | `onState(s)` keeps the protocol state and publishes the composition of that state with `s`. The held agent, if any, stays the same connection and records `s`. With WireGuard and a session, a terminal protocol state then closes the agent as `Closed` does, and Connected without an agent launches one job as `Launched` does. In every other case, no other field changes. |
| BackendSpec.AfterAgentJob | app/src/main/java/com/protonvpn/android/vpn/VpnBackend.kt:121-136 | A cancelled or finished job does nothing. A pending job sets `agent` only on a successful fetch. On failure the agent is unchanged and one "cert fetch failed" line is logged. Published state, protocol state and job reference are unchanged. |
| BackendSpec.PollUntilDisabled | app/src/main/java/com/protonvpn/android/vpn/VpnBackend.kt:146-150 | The loop polls at least once and at most 15 times (3000 ms / 200 ms). If it stops before the 15th poll, it has seen Disabled. If the first poll sees Disabled, it stops after that poll. |
| BackendSpec.PollTrace | app/src/main/java/com/protonvpn/android/vpn/VpnBackend.kt:146-150 | The state after the loop is the result of running the events of every poll made, in order, and no poll before the last saw Disabled: the loop stops at the first poll that sees Disabled. |
| BackendSpec.AfterWait | app/src/main/java/com/protonvpn/android/vpn/VpnBackend.kt:145-153 | After the wait the state is never Disconnecting. The final write changes only the published state, and only from Disconnecting to Disabled. |
| BackendSpec.InitiallySettled | app/src/main/java/com/protonvpn/android/vpn/VpnBackend.kt:85-93 | A new backend (Disabled, no agent, no job) satisfies the invariant. |
| BackendSpec.StepKeepsSettled | app/src/main/java/com/protonvpn/android/vpn/VpnBackend.kt:80-143 | With the previous job cancelled, every entry point preserves the invariant. |
| BackendSpec.RunKeepsSettled | app/src/main/java/com/protonvpn/android/vpn/VpnBackend.kt:80-143 | Any sequence of events preserves the invariant. |
| BackendSpec.ReachableStatesSettled | app/src/main/java/com/protonvpn/android/vpn/VpnBackend.kt:80-143 | In every reachable state (with the session fixed), no agent is open and no job is pending while Disabled or Disconnecting is published, at most one job is pending, and no job is pending while an agent is held. |
| BackendSpec.PollKeepsSettled | app/src/main/java/com/protonvpn/android/vpn/VpnBackend.kt:146-150 | The polling loop, with events delivered during each delay, preserves the invariant. |
| BackendSpec.WaitKeepsSettled | app/src/main/java/com/protonvpn/android/vpn/VpnBackend.kt:145-153 | Forcing Disabled at the end of the wait preserves the invariant. |
| BackendSpec.ComposedIgnoresBackend | app/src/main/java/com/protonvpn/android/vpn/VpnBackend.kt:95-117 | The same inputs give the same published state, whatever the backend's other fields hold (no hidden counters). |
| BackendSpec.ClosedIdempotent | app/src/main/java/com/protonvpn/android/vpn/VpnBackend.kt:139-143 | Closing twice is the same as closing once. |
| BackendSpec.ConnectedLaunchesWithoutAgent | app/src/main/java/com/protonvpn/android/vpn/VpnBackend.kt:107-110 | With WireGuard and a session, composing Connected launches one job iff no agent is held, and changes nothing when one is held. As written, earlier pending jobs remain pending. |
| BackendSpec.PublishedStateIsComposition | app/src/main/java/com/protonvpn/android/vpn/VpnBackend.kt:80-89 | Both callback paths leave the published state equal to the composition of the current protocol state and the current agent sub-state. For `onState`, this holds when the callback comes from the held connection. |
| BackendSpec.PollWithoutArrivals | app/src/main/java/com/protonvpn/android/vpn/VpnBackend.kt:146-150 | If nothing happens while waiting and the state is not Disabled, the loop runs all 15 polls and changes nothing. |
| BackendSpec.WaitTimesOutToDisabled | app/src/main/java/com/protonvpn/android/vpn/VpnBackend.kt:145-153 | A teardown notification that never comes: after 15 polls the state is forced from Disconnecting to Disabled, and nothing else changes. |
| BackendSpec.WaitReturnsAtOnceWhenDisabled | app/src/main/java/com/protonvpn/android/vpn/VpnBackend.kt:145-153 | An already Disabled backend, with nothing arriving during the wait, polls once and is left unchanged. |
| BackendSpec.AgentReachesHealthyState | app/src/main/java/com/protonvpn/android/vpn/VpnBackend.kt:85-136 | Connected tunnel: Connecting is published and a job is pending. After a successful fetch the agent exists and the state is still Connecting. After the agent reports `stateSoftJailed`, Connected is published. |
| BackendSpec.CertificateFailureStallsConnecting | app/src/main/java/com/protonvpn/android/vpn/VpnBackend.kt:121-135 | A failed certificate fetch leaves no agent and no pending job, logs one failure line, and leaves the state at Connecting. |
| BackendSpec.DisconnectingClosesLiveAgent | app/src/main/java/com/protonvpn/android/vpn/VpnBackend.kt:99-102 | Disconnecting with a live agent closes that agent and clears the field before Disconnecting is published. |
| BackendSpec.OrphanedAgentJob | app/src/main/java/com/protonvpn/android/vpn/VpnBackend.kt:120-121 | As written: the event sequence Connected, Connected, Disabled, then job 0's fetch succeeds ends with an agent open while Disabled is published. |
| BackendSpec.CancelledJobOpensNoAgent | app/src/main/java/com/protonvpn/android/vpn/VpnBackend.kt:120-143 | The same events with the previous job cancelled leave no agent. |
| BackendSpec.OverwrittenAgentNeverClosed | app/src/main/java/com/protonvpn/android/vpn/VpnBackend.kt:120-132 | As written: Connected, Connected, then both jobs' fetches succeed. After the first, agent 0 is open while job 1 is still pending (the invariant fails). The second assignment replaces agent 0 with agent 1, and agent 0 is never closed. |
| BackendSpec.HeldAgentNeverReplaced | app/src/main/java/com/protonvpn/android/vpn/VpnBackend.kt:121-132 | In any state satisfying the invariant in which an agent is held, running any job changes nothing: the live agent is never overwritten. |
| BackendSpec.ClearedSessionLeavesAgentOpen | app/src/main/java/com/protonvpn/android/vpn/VpnBackend.kt:95-105 | With an agent live, once the session is gone a Disabled protocol state takes the pass-through branch: Disabled is published and the agent stays open. |
| Backend.VpnBackend.constructor | app/src/main/java/com/protonvpn/android/vpn/VpnBackend.kt:85-93 | Starts Disabled/Disabled with no agent and no job, and satisfies `Valid()`. |
| Backend.VpnBackend.GetGlobalVpnState | app/src/main/java/com/protonvpn/android/vpn/VpnBackend.kt:95-105 | Updates the fields and returns the state exactly as `Composed` prescribes. |
| Backend.VpnBackend.HandleLocalAgentStates | app/src/main/java/com/protonvpn/android/vpn/VpnBackend.kt:107-117 | Launches a job iff no agent is held. Returns Connected iff the sub-state is `stateSoftJailed`. |
| Backend.VpnBackend.ConnectToLocalAgent | app/src/main/java/com/protonvpn/android/vpn/VpnBackend.kt:119-137 | Launches one job as `Launched(CancelPrevious, ...)` describes. This is the corrected version (see Findings). |
| Backend.VpnBackend.CloseAgentConnection | app/src/main/java/com/protonvpn/android/vpn/VpnBackend.kt:139-143 | Changes the fields exactly as `Closed` does. |
| Backend.VpnBackend.SetVpnProtocolState | app/src/main/java/com/protonvpn/android/vpn/VpnBackend.kt:85-89 | Stores the value and publishes its composition, as `AfterProtocolStateSet` does. Keeps `Valid()`. |
| Backend.VpnBackend.OnState | app/src/main/java/com/protonvpn/android/vpn/VpnBackend.kt:80-82 | Publishes the composition of the unchanged protocol state with the reported sub-state, as `AfterAgentStateReported` does. Keeps `Valid()`. |
| Backend.VpnBackend.RunAgentJob | app/src/main/java/com/protonvpn/android/vpn/VpnBackend.kt:121-136 | Runs the job body as `AfterAgentJob` does. Keeps `Valid()`. |
| Backend.VpnBackend.WaitForDisconnect | app/src/main/java/com/protonvpn/android/vpn/VpnBackend.kt:145-153 | Makes 1 to 15 polls and leaves the state not Disconnecting, as `AfterWait` prescribes. Keeps `Valid()`. |
| CoreLogger.MessageWithError | app/src/main/java/com/protonvpn/android/utils/VpnCoreLogger.kt:100-101 | The forwarded text is the message, then a line break, then the stack trace (and splits back into them). |
| CoreLogger.CategoryForTag | app/src/main/java/com/protonvpn/android/utils/VpnCoreLogger.kt:103-120 | Session, network and human-verification tags map to API, keystore tags to SECURE_STORE, and exactly the unknown tags to APP. |
| CoreLogger.ForwardToProtonLogger | app/src/main/java/com/protonvpn/android/utils/VpnCoreLogger.kt:122-129 | The message is forwarded unchanged. Exactly the three API tags become ApiLogRequest/Response/Error. Every other tag is a custom entry with the source level and `categoryForTag`. |
| CoreLogger.TakeDebug | app/src/main/java/com/protonvpn/android/utils/VpnCoreLogger.kt:36 | The result is the prefix of the message of length min(length, 500). |
| CoreLogger.E | app/src/main/java/com/protonvpn/android/utils/VpnCoreLogger.kt:40-43 | Timber gets the arguments, and one Proton forward goes at ERROR (as routed by `ForwardToProtonLogger`) with the message unchanged; a custom forward carries ERROR. |
| CoreLogger.EThrowable | app/src/main/java/com/protonvpn/android/utils/VpnCoreLogger.kt:45-48 | One ERROR forward of "no message", a line break and the trace. A custom forward carries ERROR. |
| CoreLogger.EThrowableMessage | app/src/main/java/com/protonvpn/android/utils/VpnCoreLogger.kt:50-53 | One ERROR forward of the message, a line break and the trace. A custom forward carries ERROR. |
| CoreLogger.I | app/src/main/java/com/protonvpn/android/utils/VpnCoreLogger.kt:55-58 | One INFO forward with the message unchanged; a custom forward carries INFO. |
| CoreLogger.IThrowableMessage | app/src/main/java/com/protonvpn/android/utils/VpnCoreLogger.kt:60-63 | One INFO forward of the message with the trace. A custom forward carries INFO. |
| CoreLogger.W | app/src/main/java/com/protonvpn/android/utils/VpnCoreLogger.kt:65-68 | One WARN forward with the message unchanged; a custom forward carries WARN. |
| CoreLogger.WThrowable | app/src/main/java/com/protonvpn/android/utils/VpnCoreLogger.kt:70-73 | One WARN forward of "no message" with the trace. A custom forward carries WARN. |
| CoreLogger.WThrowableMessage | app/src/main/java/com/protonvpn/android/utils/VpnCoreLogger.kt:75-78 | One WARN forward of the message with the trace. A custom forward carries WARN. |
| CoreLogger.D | app/src/main/java/com/protonvpn/android/utils/VpnCoreLogger.kt:80-83 | Timber gets the whole message. One DEBUG forward goes to the Proton logger with a prefix of the message of length min(length, 500). |
| CoreLogger.DThrowableMessage | app/src/main/java/com/protonvpn/android/utils/VpnCoreLogger.kt:85-88 | One DEBUG forward of the message with the trace, not truncated. A custom forward carries DEBUG. |
| CoreLogger.V | app/src/main/java/com/protonvpn/android/utils/VpnCoreLogger.kt:90-93 | One TRACE forward with the message unchanged; a custom forward carries TRACE. |
| CoreLogger.VThrowableMessage | app/src/main/java/com/protonvpn/android/utils/VpnCoreLogger.kt:95-98 | One TRACE forward of the message with the trace. A custom forward carries TRACE. |
| CoreLogger.DebugTruncation | app/src/main/java/com/protonvpn/android/utils/VpnCoreLogger.kt:80-83 | Debug messages of at most 500 characters are forwarded unchanged. Longer ones are cut to their first 500 characters. |
| CoreLogger.ApiTagIgnoresLevel | app/src/main/java/com/protonvpn/android/utils/VpnCoreLogger.kt:123-126 | An API tag yields the same forward whatever the source level. |
| CoreLogger.CustomForwardKeepsLevel | app/src/main/java/com/protonvpn/android/utils/VpnCoreLogger.kt:127 | For any other tag, different source levels give different forwards: the level is preserved. |
| CoreLogger.ThrowableOnlyIsNoMessage | app/src/main/java/com/protonvpn/android/utils/VpnCoreLogger.kt:45-78 | The throwable-only overloads forward what the throwable-and-message overloads forward for "no message". |
| CoreLogger.MessageWithErrorSplits | app/src/main/java/com/protonvpn/android/utils/VpnCoreLogger.kt:100-101 | Given the message length, the combined text determines the message and the trace. |

## Findings

| source | as written | input that shows it | evidently intended | confidence | as-written member | corrected member |
|---|---|---|---|---|---|---|
| app/src/main/java/com/protonvpn/android/vpn/VpnBackend.kt:120-121 | `connectToLocalAgent` overwrites `agentConnectionJob` with a new job and never cancels the job it replaces. That earlier job stays pending and unreferenced, so `closeAgentConnection` can no longer cancel it. | WireGuard with a session. The protocol state is set to Connected twice before the first certificate fetch returns, then set to Disabled. Then the first job's fetch succeeds: an agent is open while Disabled is published. Without the Disabled, both fetches succeed and the second job's assignment (line 124) replaces the live first agent, which is never closed. | At most one agent job is in flight, and no agent is open while Disabled or Disconnecting is published. The previous job is cancelled before a new one is launched. | medium; not executed | BackendSpec.OrphanedAgentJob, BackendSpec.OverwrittenAgentNeverClosed | Backend.VpnBackend.ConnectToLocalAgent |

The corrected behaviour is `JobPolicy.CancelPrevious`. The class uses it, `BackendSpec.ReachableStatesSettled` proves the invariant for it, and `BackendSpec.HeldAgentNeverReplaced` shows that under the invariant no job replaces a live agent. The code as written is `JobPolicy.KeepPrevious`.

## Left out

- `prepareForConnection`, `connect`, `disconnect`, `reconnect`, `retryInfo`, `VpnBackendProvider.prepareConnection` and `pingAll` are abstract or interface declarations with no body, so they have no behaviour to state.
- `nativeClient.log` and `nativeClient.onError` only write to the log. Logging is not modelled except for the certificate-failure line.
- The `active` field and `RetryInfo`/`PrepareResult` carry no behaviour here.
- Coroutines are modelled as explicit events (`Event`):
  - `mainScope.launch` becomes a numbered pending job, and its body is the separate event `AgentJobRan`.
  - Cancellation removes the job from the pending set. The model assumes a cancelled job never reaches its `agent =` assignment.
  - `postValue` becomes a synchronous assignment.
  - The events that reach the backend during each 200 ms `delay` are an input.
- The race between the 15th `delay` and the 3000 ms `withTimeoutOrNull` is not modelled: the model always completes the 15th poll.
- The native `AgentConnection` is reduced to the job that created it and its last reported sub-state. Its construction arguments (certificate, key, root certificates, address, network hint, flag) are not modelled, and the constructor is assumed not to throw. The native connection's own `state` property is represented by that sub-state, which `OnState` records before composing.
- `localAgent.LocalAgent.constants().stateSoftJailed` has a literal value that belongs to the native library. The model uses a fixed string and relies only on equality with it.
- The protocol (`name`) and `userData.sessionId` are fixed for the life of a backend, although the code reads `userData.sessionId` again on every composition (line 96). `ReachableStatesSettled` holds only while the session is fixed. If the session is cleared while an agent is live, a later Disabled or Disconnecting takes the pass-through branch (line 105) without closing it, so the agent stays open while Disabled is published (`ClearedSessionLeavesAgentOpen`). A job body that runs after the session is cleared throws on `userData.sessionId!!` (line 122); that exception is not modelled.
- `VpnState.kt` and `VpnProtocol` are not part of this model. States other than Disabled, Connecting, Connected and Disconnecting are `OtherState(name)`, and protocols other than WireGuard are `OtherProtocol(name)`.
- The log tags are distinct constants declared in the core libraries, plus `OtherTag(name)` for every other string. The model assumes the constants' strings are pairwise distinct and differ from every `OtherTag`.
- `DebugUtils.debugAssert` in the unknown-tag branch has the constant condition `true` and no effect, so it is left out.
- `take(500)` counts UTF-16 code units in Kotlin. The model counts characters, so surrogate pairs are not modelled.
- A throwable is reduced to the text of `stackTraceToString()`, which is a foreign call.
- The levels Timber receives are named like the Proton levels; Timber's verbose level is `Trace`.
- The UI, settings view model, theme, server load bar, guest-hole suppressor and coroutine test helper files are outside the modelled core.
