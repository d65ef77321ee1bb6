/** Client runs of the session controller, each proved from the methods'
    contracts alone: what a caller of camera.ts can rely on. */
module Scenarios {
  import opened Failures
  import opened Driver
  import opened ConfigSync
  import opened Session

  const RootConfig := ConfigTree("main")

  /** A driver that answers every call successfully. */
  function Healthy(image: Payload): Answers {
    Answers((k: nat) => Returned(RootConfig), Returned(()), Returned([]), Returned(image), Returned(false))
  }

  /** A driver whose image capture fails with `e`. */
  function Failing(e: Err): Answers {
    Answers((k: nat) => Returned(RootConfig), Returned(()), Returned([]), Threw(e), Returned(false))
  }

  const Unplugged := DomException(DisconnectionName, DisconnectionText)

  lemma UnpluggedIsDisconnection()
    ensures IsDisconnectionError(Unplugged)
  {
  }

  /** A fresh camera after a successful connect. */
  method Connected() returns (cam: Camera)
    ensures fresh(cam) && cam.Valid()
    ensures cam.state == Ready && cam.stateLog == [Disconnected, Connecting, Ready]
    ensures cam.chain == [] && cam.queue == Settled(None) && cam.context.Some? && fresh(cam.context.value)
    ensures cam.SingleFlight()
  {
    var m := new DriverModule();
    cam := new Camera(m);
    var connected := cam.Connect(Loaded, None);
  }

  /** Connect, then capture one image: DISCONNECTED, CONNECTING, READY, BUSY,
      READY, and the caller receives the driver's file. */
  method ConnectAndCapture(image: Payload) returns (connected: Outcome<bool>, captured: Outcome<Value>, log: seq<CameraState>)
    ensures connected == Returned(true)
    ensures captured == Returned(File(image))
    ensures log == [Disconnected, Connecting, Ready, Busy, Ready]
  {
    var m := new DriverModule();
    var cam := new Camera(m);
    connected := cam.Connect(Loaded, None);
    var refused := cam.CaptureImageAsFile();
    captured := cam.Settle(Healthy(image));
    log := cam.stateLog;
  }

  /** A capture that fails because the device was unplugged ends in
      DISCONNECTED, emits "camera_disconnected", reaches the caller, and makes
      the next operation be refused. The context is not deleted. */
  method DeviceLostDuringCapture() returns (captured: Outcome<Value>, next: Option<Err>, lastEvent: string, state: CameraState, contextHeld: bool)
    ensures captured == Threw(Unplugged)
    ensures state == Disconnected && lastEvent == DisconnectionEvent
    ensures next == Some(PlainError(NotReadyMessage))
    ensures contextHeld
  {
    var cam := Connected();
    var refused := cam.CaptureImageAsFile();
    assert cam.chain == [Link(FullImage, Running(true))];
    UnpluggedIsDisconnection();
    captured := cam.Settle(Failing(Unplugged));
    assert captured == Threw(Unplugged);
    assert cam.state == Disconnected && cam.context.Some?;
    next := cam.CapturePreviewAsBlob();
    lastEvent := cam.events[|cam.events| - 1];
    state := cam.state;
    contextHeld := cam.context.Some?;
  }

  /** After an operation fails, `#queue` stays rejected: the next operation is
      admitted (the state is READY again) but rejects with the same error
      without running, so no "Capturing preview" is emitted. */
  method FailurePoisonsQueue() returns (first: Outcome<Value>, second: Outcome<Value>, secondRan: bool)
    ensures first == Threw(PlainError("PTP busy"))
    ensures second == first && !secondRan
  {
    var cam := Connected();
    var refused := cam.CaptureImageAsFile();
    assert cam.chain == [Link(FullImage, Running(true))];
    first := cam.Settle(Failing(PlainError("PTP busy")));
    assert first == Threw(PlainError("PTP busy"));
    assert cam.state == Ready && cam.chain == [] && cam.queue == Settled(Some(PlainError("PTP busy")));
    var before := |cam.events|;
    refused := cam.CapturePreviewAsBlob();
    assert cam.chain == [Link(PreviewFrame, Rejected(PlainError("PTP busy")))];
    second := cam.Settle(Failing(PlainError("PTP busy")));
    secondRan := |cam.events| != before;
  }

  /** cancelCurrentOperation clears a rejected `#queue`: the next operation runs. */
  method CancelClearsFailure(image: Payload) returns (first: Outcome<Value>, next: Outcome<Value>)
    ensures first == Threw(PlainError("PTP busy"))
    ensures next == Returned(File(image))
  {
    var cam := Connected();
    var refused := cam.CaptureImageAsFile();
    assert cam.chain == [Link(FullImage, Running(true))];
    first := cam.Settle(Failing(PlainError("PTP busy")));
    assert first == Threw(PlainError("PTP busy"));
    assert cam.chain == [] && cam.context.Some?;
    cam.CancelCurrentOperation();
    refused := cam.CaptureImageAsFile();
    assert cam.chain == [Link(FullImage, Running(true))];
    next := cam.Settle(Healthy(image));
  }

  /** A disconnect while a capture is in flight: the capture was invoked with
      the live context when it was scheduled, so it settles as the driver
      answers, and its `.finally` publishes READY once more. */
  method DisconnectDuringCapture(image: Payload) returns (captured: Outcome<Value>, log: seq<CameraState>)
    ensures captured == Returned(File(image))
    ensures log == [Disconnected, Connecting, Ready, Busy, Ready, Ready]
  {
    var cam := Connected();
    var refused := cam.CaptureImageAsFile();
    assert cam.chain == [Link(FullImage, Running(true))];
    cam.Disconnect();
    captured := cam.Settle(Healthy(image));
    log := cam.stateLog;
  }

  /** disconnect publishes READY, so the next operation is admitted; it is
      invoked with `#context` null and rejects with a TypeError, which the
      `.catch` neither treats as a disconnection nor turns into ERROR. */
  method ScheduleAfterDisconnect(image: Payload) returns (refused: Option<Err>, captured: Outcome<Value>, state: CameraState)
    ensures refused == None
    ensures captured == Threw(NullContextError)
    ensures state == Ready
  {
    var cam := Connected();
    cam.Disconnect();
    refused := cam.CaptureImageAsFile();
    assert cam.chain == [Link(FullImage, Running(false))];
    captured := cam.Settle(Healthy(image));
    state := cam.state;
  }

  /** The one departure from single-flight: cancelCurrentOperation while a
      capture is in flight, then a second capture. The second is chained on
      the fresh fulfilled `#queue` and invoked at once, so two captures run
      side by side with the same context. */
  method CancelBreaksSingleFlight() returns (pending: seq<Link>, ghost before: bool, ghost after: bool)
    ensures pending == [Link(FullImage, Running(true)), Link(PreviewFrame, Running(true))]
    ensures before && !after
  {
    var cam := Connected();
    var refused := cam.CaptureImageAsFile();
    before := cam.SingleFlight();
    cam.CancelCurrentOperation();
    refused := cam.CapturePreviewAsBlob();
    pending := cam.chain;
    assert !pending[1].stage.Waiting?;
    after := cam.SingleFlight();
  }

  /** Two disconnects in a row: the context is deleted once (Ctx.Delete
      refuses a deleted handle), and each publishes READY. */
  method DisconnectTwice() returns (deleted: bool, log: seq<CameraState>)
    ensures deleted
    ensures log == [Disconnected, Connecting, Ready, Ready, Ready]
  {
    var m := new DriverModule();
    var cam := new Camera(m);
    var connected := cam.Connect(Loaded, None);
    var ctx := cam.context.value;
    cam.Disconnect();
    cam.Disconnect();
    deleted := ctx.deleted;
    log := cam.stateLog;
  }

  /** A failed module load ends in ERROR and sets a recovery timer; when the
      timer fires, disconnect publishes READY and the reconnect is refused.
      A second camera reuses the rejected module promise and fails the same
      way, whatever the loader would now answer. */
  method FailedLoadAndRecovery(e: Err) returns (first: Outcome<bool>, recovered: Option<Outcome<bool>>, state: CameraState, other: Outcome<bool>)
    ensures first == Threw(e)
    ensures recovered == Some(Threw(PlainError(AlreadyConnectedMessage)))
    ensures state == Ready
    ensures other == Threw(e)
  {
    var m := new DriverModule();
    var cam := new Camera(m);
    first := cam.Connect(LoadFailed(e), None);
    recovered := cam.AttemptRecovery(Loaded, None);
    state := cam.state;
    var cam2 := new Camera(m);
    other := cam2.Connect(Loaded, None);
  }

  /** Two operations in flight at once (the second begun after a cancel). The
      first fails with a disconnection error; when the second settles the state
      is DISCONNECTED, so its `.finally` publishes nothing. */
  method LateSettleAfterDisconnection(image: Payload) returns (log: seq<CameraState>, second: Outcome<Value>)
    ensures log == [Disconnected, Connecting, Ready, Busy, Ready, Busy, Ready, Disconnected]
    ensures second == Returned(File(image))
  {
    var cam := Connected();
    var refused := cam.CaptureImageAsFile();
    cam.CancelCurrentOperation();
    refused := cam.CaptureImageAsFile();
    assert cam.chain == [Link(FullImage, Running(true)), Link(FullImage, Running(true))];
    UnpluggedIsDisconnection();
    var first := cam.Settle(Failing(Unplugged));
    assert first == Threw(Unplugged);
    assert cam.state == Disconnected && cam.context.Some? && cam.chain == [Link(FullImage, Running(true))];
    second := cam.Settle(Healthy(image));
    log := cam.stateLog;
  }

  /** The poll stops at the first matching read: a tree named "iso" on the
      third read is accepted after three reads, not ten. Writing the number 400
      instead never matches a string name and times out after ten reads. */
  method PollScenario() returns (asString: Outcome<()>, stringReads: nat, asNumber: Outcome<()>, numberReads: nat)
    ensures asString == Returned(()) && stringReads == 3
    ensures asNumber == Threw(PlainError(TimeoutMessage)) && numberReads == MaxRetries
  {
    var read := (k: nat) => Returned(ConfigTree(if k < 2 then "main" else "iso"));
    PollConverges(read, Str("iso"), 0, 2);
    asString, stringReads := PollUntilApplied(read, Str("iso"));
    NonStringNeverConverges(read, Num(400), 0);
    asNumber, numberReads := PollUntilApplied(read, Num(400));
  }
}
