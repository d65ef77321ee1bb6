# Camera session controller — a Dafny model

This project models the session controller of webGphoto2, the `Camera` class
in `src/camera.ts`. The controller sits between a web page and a WebAssembly
build of libgphoto2. It has four parts, and the model covers each one:

- **Connection lifecycle.** `connect` is guarded by the DISCONNECTED state. It
  initialises the process-wide driver module at most once, then creates a
  driver context. `disconnect` deletes the context at most once.
- **Single-flight scheduler.** `#schedule` admits an operation only in READY
  and publishes BUSY. It chains the operation on `#queue` and returns to READY
  when the operation settles.
- **Error classification.** `rethrowIfCritical` and `isDisconnectionError`
  decide what the scheduler's `.catch` handler does with a failure.
- **Configuration writes.** `setConfigValue` writes a value, then polls the
  configuration tree up to ten times.

Files, leaves first:

- `failures.dfy` (module `Failures`): thrown values as a closed datatype `Err`,
  `Outcome` (fulfilled or rejected), `rethrowIfCritical`,
  `isDisconnectionError` and `String.prototype.includes`.
- `driver.dfy` (module `Driver`): the driver's shapes, taken from
  `src/libapi.types.ts`. It also holds the driver context (`Ctx`, which can be
  deleted once) and the module-level `ModulePromise` (`DriverModule`). Whatever
  the driver answers is an oracle parameter (`Answers`, `InitResult`).
- `config_sync.dfy` (module `ConfigSync`): the polling loop of
  `setConfigValue`. It is a method with a `while` loop, proved against the
  function `Poll`. Lemmas cover convergence, the timeout, and the strict
  comparison.
- `camera.dfy` (module `Session`): the class `Camera`.
  - The `state` BehaviorSubject is modelled as the field `state` plus `stateLog`,
    the list of every value it has published.
  - The `events` BehaviorSubject is modelled as the list `events`.
  - `#context`, `#queue` and the recovery timers are fields too.
  - `Valid()` says that every published transition is one the model can make
    (`Step`).
  - `SingleFlight()` is the scheduler's discipline: at most one scheduled
    operation has been invoked and not settled, and every later one waits on
    its predecessor. Every step keeps it except `cancelCurrentOperation`,
    which breaks it whenever an operation is pending.
  - `#schedule` is split into two steps. `Begin` is the guard, BUSY and the
    chaining. `Settle` runs the operation, then `.finally`, then `.catch`.
    This keeps the source's order visible: `.finally` runs before `.catch`, so
    a disconnection error ends in DISCONNECTED.
  - The `#queue` promise is modelled as `queue`. It is either already settled
    (fulfilled, or rejected with an error) or `Tail`, the pending promise of
    the most recently begun operation. The list `chain` holds the pending
    operations, oldest first, and where each stands: waiting on its
    predecessor, invoked (with or without a context), or rejected by what it
    was chained on. An operation is invoked as soon as what it was chained on
    fulfils. At that moment it takes `#context` and emits its capture event.
- `scenarios.dfy` (module `Scenarios`): client runs proved from the contracts
  alone. They cover connect then capture, a device lost mid-capture, the
  poisoned queue and its cancellation, a double disconnect, a failed load and
  its recovery, a late settle after a disconnection, a disconnect during a
  capture, an operation scheduled after a disconnect, and polling.

Behaviours of the code the model keeps:

- `disconnect` publishes READY, not DISCONNECTED. An operation scheduled
  afterwards is admitted and rejects with a TypeError on the null context.
- `src/camera.ts` publishes no CONNECTED state, although the declared enum in
  src/camera.d.ts:4-10 has one.
- In the model, where `connect` is one atomic step, ERROR can only follow
  CONNECTING. The scheduler's ERROR transition is dead code, because
  `rethrowIfCritical` never returns `true`.
- A disconnection error does not dispose of the context.
- The recovery's reconnect is always refused.
- The configuration poll compares the root widget's `name` with the written
  value, using strict equality. So a numeric value never converges.

## Model

| member | source | states |
|---|---|---|
| `Failures.Contains` | src/camera.ts:120 | `includes` holds exactly when some position of the message starts a copy of the searched text |
| `Failures.RethrowIfCritical` | src/camera.ts:14-22 | rethrows the same error value exactly when its constructor is not exactly `Error`; otherwise returns `false`, and it never returns `true` |
| `Failures.IsDisconnectionError` | src/camera.ts:115-122 | holds exactly for a DOMException named `NotFoundError` whose message contains "The device was disconnected"; every such error is one `rethrowIfCritical` would rethrow, which is why it must be tested first |
| `ConfigSync.Poll` | src/camera.ts:160-171 | polling makes at most ten reads, and it succeeds only after at least one read |
| `ConfigSync.PollOutcomes` | src/camera.ts:160-171 | success comes only on a read whose name equals the value, after mismatching reads only; failure is either a read's own error after mismatching reads, or the timeout error after ten mismatching reads |
| `ConfigSync.PollUntilApplied` | src/camera.ts:160-171 | the `while` loop with `retries` and `break` settles, and counts its reads, exactly as `Poll` says |
| `ConfigSync.PollConverges` | src/camera.ts:161-165 | a value that appears on read k after k mismatches succeeds after exactly k+1 reads |
| `ConfigSync.PollTimesOut` | src/camera.ts:161-171 | a value that never appears fails with "Config value did not update in time" after exactly ten reads |
| `ConfigSync.NonStringNeverConverges` | src/camera.ts:163 | because the root name is compared strictly with the value, a number or boolean value times out unless a read fails |
| `Session.CatchEffect` | src/camera.ts:104-111 | the `.catch` handler forces DISCONNECTED exactly for a disconnection error, and it never forces ERROR |
| `Session.OpResult` | src/camera.ts:146-190 | an operation invoked without a context rejects with a TypeError; the captures settle as the driver answers; a write succeeds only for a string value and only if the driver's write succeeded |
| `Session.RunOp` | src/camera.ts:146-190 | the operation bodies settle exactly as `OpResult` says; the write is followed by the polling loop |
| `Session.Camera.constructor` | src/camera.ts:30-45 | the camera starts DISCONNECTED, its logs holding only the initial DISCONNECTED and '', with no context, a fulfilled queue and no recovery timers |
| `Session.Camera.Publish` | src/camera.ts:39-44 | publishing a state appends it to the log and keeps the transition discipline; publishing ERROR also emits "Camera error occurred" and sets one recovery timer |
| `Session.Camera.HandleError` | src/camera.ts:47-52 | emits the error event and sets one recovery timer |
| `Session.Camera.AttemptRecovery` | src/camera.ts:54-58 | outside ERROR it does nothing; in ERROR it disconnects (READY, no context), and the following connect is refused with "Camera is already connected or connecting" |
| `Session.Camera.Connect` | src/camera.ts:71-92 | outside DISCONNECTED it throws and changes nothing; otherwise it creates the module promise only when unset. On success it publishes CONNECTING, READY, holds a fresh live context and returns true; on failure it publishes CONNECTING, ERROR, emits the error event and "Connection error: …", keeps the context, and rethrows |
| `Session.Camera.ConnectSucceeded` | src/camera.ts:82-85 | holds a fresh live context, publishes READY and emits "Camera connected" |
| `Session.Camera.ConnectFailed` | src/camera.ts:86-89 | publishes ERROR (which emits the error event and sets a recovery timer), then emits "Connection error: " followed by the error's message |
| `Session.Camera.Begin` | src/camera.ts:94-99 | outside READY it throws "Camera is not ready" and changes nothing; in READY it publishes BUSY, chains the operation on `#queue` (invoking it at once if the queue has fulfilled, which emits its capture event) and makes the queue pending; it keeps the single-flight discipline (at most one invoked operation pending, the rest waiting on their predecessors) |
| `Session.Camera.Settle` | src/camera.ts:99-112 | the operation runs only if its predecessor fulfilled, otherwise it rejects with the predecessor's error. READY is published unless the state is DISCONNECTED at that moment, and a disconnection error then publishes DISCONNECTED and emits "camera_disconnected". Every failure reaches the caller. If this operation's promise is still `#queue`, the queue becomes rejected with the failure; if a later operation is chained on it, that operation carries the error instead (and a queue replaced by `cancelCurrentOperation` stays fulfilled); if the operation fulfilled, the one chained on it is invoked with the context as it is then. It keeps the single-flight discipline |
| `Session.Camera.Finally` | src/camera.ts:99-103 | publishes READY unless the state is DISCONNECTED, and nothing else |
| `Session.Camera.Catch` | src/camera.ts:104-111 | a disconnection error publishes DISCONNECTED and emits "camera_disconnected"; any other error changes nothing before it is rethrown |
| `Session.Camera.Advance` | src/camera.ts:99-112 | the settled operation leaves the chain; its successor is invoked with the context as it is now (emitting its capture event) if it fulfilled, or carries its error; a pending queue that was its promise becomes settled with its outcome |
| `Session.Camera.HandleDisconnection` | src/camera.ts:124-127 | publishes DISCONNECTED and emits "camera_disconnected" |
| `Session.Camera.Disconnect` | src/camera.ts:129-136 | deletes the held context only if it is not deleted yet, so never twice; always drops the context, publishes READY and emits "Camera disconnected" |
| `Session.Camera.CancelCurrentOperation` | src/camera.ts:138-143 | the queue becomes fulfilled again, READY is published and "Current operation cancelled" emitted; pending operations are untouched; single-flight holds afterwards exactly when nothing was pending |
| `Session.Camera.GetSupportedOps` | src/camera.ts:149-154 | answers from the held context, whatever the state, and fails with "You need to connect to the camera first" exactly when none is held |
| `Session.Camera.GetConfig` | src/camera.ts:145-147 | schedules the configuration read under the scheduler's guard |
| `Session.Camera.SetConfigValue` | src/camera.ts:156-158 | schedules the write-and-poll operation under the scheduler's guard |
| `Session.Camera.CapturePreviewAsBlob` | src/camera.ts:175-180 | schedules the preview capture under the scheduler's guard |
| `Session.Camera.CaptureImageAsFile` | src/camera.ts:182-187 | schedules the image capture under the scheduler's guard |
| `Session.Camera.ConsumeEvents` | src/camera.ts:189-191 | schedules the event drain under the scheduler's guard |
| `Driver.Ctx.Delete` | src/libapi.types.ts:36-37 | `delete()` is allowed only on a handle whose `isDeleted()` is false, and afterwards `isDeleted()` holds |
| `Driver.Ctx.constructor` | src/libapi.types.ts:41-43 | a new context reports `isDeleted()` false |
| `ConfigSync.NameEquals` | src/camera.ts:163 | the strict comparison holds exactly when the value is a string equal to the root name |
| `Driver.DriverModule.constructor` | src/camera.ts:26 | the module promise starts unset |
| `Scenarios.ConnectAndCapture` | src/camera.ts:71-112 | a connect then one capture publishes DISCONNECTED, CONNECTING, READY, BUSY, READY and returns the driver's file |
| `Scenarios.DeviceLostDuringCapture` | src/camera.ts:99-127 | a disconnection error reaches the caller and ends in DISCONNECTED with "camera_disconnected" last; the next operation is refused, and the context is still held |
| `Scenarios.FailurePoisonsQueue` | src/camera.ts:99-111 | after a failure the next operation is admitted but rejects with the same error, without running |
| `Scenarios.CancelClearsFailure` | src/camera.ts:138-143 | after a failure and cancelCurrentOperation, the next operation runs and returns the driver's file |
| `Scenarios.DisconnectTwice` | src/camera.ts:129-136 | two disconnects delete the context once and publish READY twice |
| `Scenarios.FailedLoadAndRecovery` | src/camera.ts:47-92 | a failed load ends in ERROR, and the recovery's reconnect is refused; a second camera reuses the rejected module promise and fails with the same error |
| `Scenarios.LateSettleAfterDisconnection` | src/camera.ts:99-103 | an operation that settles after a disconnection has been handled publishes no READY |
| `Scenarios.PollScenario` | src/camera.ts:160-171 | a name that matches on the third read succeeds after three reads; the number 400 times out after ten |
| `Scenarios.DisconnectDuringCapture` | src/camera.ts:94-136 | a capture already invoked when `disconnect` runs still returns the driver's file, and its `.finally` publishes READY again |
| `Scenarios.ScheduleAfterDisconnect` | src/camera.ts:94-136 | after `disconnect` the next operation is admitted, rejects with a TypeError on the null context, and leaves the state READY |
| `Scenarios.CancelBreaksSingleFlight` | src/camera.ts:94-143 | cancelling while a capture is pending and then scheduling another leaves both captures invoked at once with the live context, so the single-flight discipline holds before the cancel and not after it |

## Left out

- `Camera.showPicker` and the USB class/subclass filter (src/camera.ts:24-25, 60-69): browser device-picker I/O.
- `initModule`, `Module.Context` and every `Context` method (src/libapi.ts, src/libapi.types.ts:25-38): compiled foreign code. Its answers are parameters: `InitResult` and the context constructor's optional error for `connect`, `Answers` for a scheduled operation, and a `SupportedOps` value for `getSupportedOps`.
- The 5000 ms recovery delay and the 100 ms poll sleep: timers are not modelled. A recovery timer is a pending count, and firing one is the `AttemptRecovery` step.
- rxjs `BehaviorSubject`: modelled as a current value plus an append-only log. The only subscriber, the constructor's ERROR handler, runs inside `Publish`.
- Console logging (src/camera.ts:48, 81): nothing observable.
- `Blob`, `File` and the contents of the configuration tree are opaque. Only the root `name` is kept, because only the name is read.
- `#isPreviewMode` (src/camera.ts:36): declared and never read.
- The preview loop (`startPreview`, `stopPreview`, `captureImage` in src/camera.d.ts): declared only, with no implementation here. The enum order and extra CONNECTED member in src/camera.d.ts are not modelled either.
- rollup.config.js: build configuration.
- Session.Camera.Settle: pending operations settle in the order they were begun. Once `cancelCurrentOperation` has reset `#queue` during an operation, real promises could settle in another order, and that interleaving is not modelled.
- Session.Camera.Begin: an operation chained on a fulfilled queue is invoked within `Begin`. In the source it is invoked one microtask later, so a caller that runs `disconnect()` synchronously right after scheduling, without yielding, would see it invoked on a null context; the model does not capture that ordering.
- Session.Camera.Connect: the awaits inside `connect` (src/camera.ts:80, 82) are atomic. No other step can run between publishing CONNECTING and the outcome. In the source a `disconnect` or `cancelCurrentOperation` (READY) and a `#schedule` (BUSY) can run during those awaits, and a failed load then publishes ERROR after READY or BUSY; `Step` does not allow that.
- `connect`'s final `return false` (src/camera.ts:91) cannot be reached and has no counterpart.
- JavaScript numbers written as configuration values are modelled as integers.
- Session.NullContextError: the TypeError message for calling a method on a null context is the engine's own text. Only its constructor matters to the classification.
