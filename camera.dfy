/** The camera session controller (src/camera.ts, class Camera).

    The controller's observable state is the `state` BehaviorSubject, kept here
    as its current value `state` and the log of every value it has published
    (`stateLog`, starting with the initial DISCONNECTED), and the `events`
    BehaviorSubject, kept as the log of every string it has published (starting
    with the initial ''). Asynchronous steps that the source chains with
    promises are explicit methods; what the driver answers is a parameter.

    The single-flight scheduler `#schedule` is split in two steps:
    - `Begin(op)` is the synchronous part: the READY guard, publishing BUSY and
      chaining `op` on the current `#queue`;
    - `Settle(answers)` runs the oldest pending operation to completion: `op`
      itself (only if what it was chained on fulfilled), then the `.finally`
      handler, then the `.catch` handler installed on the new `#queue`.
    An operation is invoked, taking `#context` as it is and emitting its
    capture event, as soon as what it was chained on fulfils: in `Begin` when
    `#queue` has already fulfilled, otherwise when its predecessor settles.

    `#queue` is `queue`: either a promise that has already settled (fulfilled, or
    rejected with an error), or `Tail`, the promise of the most recently begun
    operation, still pending. `chain` holds the begun operations that have not
    settled yet, oldest first; each remembers what it was chained on. */
module Session {
  import opened Failures
  import opened Driver
  import opened ConfigSync

  datatype CameraState = Disconnected | Connecting | Ready | Busy | Error

  /** The transitions the controller can publish in this model, where
      `connect` is one atomic step. READY (disconnect, cancelCurrentOperation,
      the scheduler's `.finally`) and DISCONNECTED (handleDisconnection) can
      follow any state; CONNECTING only follows DISCONNECTED (connect's guard),
      BUSY only READY (the scheduler's guard), and ERROR only CONNECTING (a
      failed connect, with no other step between its awaits). */
  predicate Step(from: CameraState, to: CameraState) {
    match to
    case Ready => true
    case Disconnected => true
    case Connecting => from == Disconnected
    case Busy => from == Ready
    case Error => from == Connecting
  }

  ghost predicate Transitions(log: seq<CameraState>) {
    forall i :: 0 < i < |log| ==> Step(log[i - 1], log[i])
  }

  lemma TransitionsExtend(log: seq<CameraState>, s: CameraState)
    requires |log| > 0 && Transitions(log) && Step(log[|log| - 1], s)
    ensures Transitions(log + [s])
  {
  }

  const AlreadyConnectedMessage := "Camera is already connected or connecting"
  const NotReadyMessage := "Camera is not ready"
  const NotConnectedMessage := "You need to connect to the camera first"

  const ErrorEvent := "Camera error occurred"
  const ConnectedEvent := "Camera connected"
  const ConnectionErrorPrefix := "Connection error: "
  const DisconnectionEvent := "camera_disconnected"
  const DisconnectedEvent := "Camera disconnected"
  const CancelledEvent := "Current operation cancelled"
  const PreviewEvent := "Capturing preview"
  const ImageEvent := "Capturing image"

  /** What calling a driver method on a null `#context` throws. */
  const NullContextError := OtherError("TypeError", "Cannot read properties of null")

  /** The operations the thin wrappers schedule, one per wrapper. */
  datatype Op =
    | ReadConfig                                  // getConfig
    | WriteConfig(name: string, value: Primitive) // setConfigValue
    | PreviewFrame                                // capturePreviewAsBlob
    | FullImage                                   // captureImageAsFile
    | DrainEvents                                 // consumeEvents

  /** What a settled operation fulfils with. */
  datatype Value = Undefined | Flag(b: bool) | Tree(config: ConfigTree) | Blob(preview: Payload) | File(image: Payload)

  /** Where a scheduled operation stands. Its callback `() => op(this.#context!)`
      is invoked as soon as what it was chained on fulfils: at that moment it
      reads `#context` and emits its capture event, and from then on it runs
      against that context. If what it was chained on rejects, it is never
      invoked. */
  datatype Stage =
    | Waiting                   // chained on the pending operation begun just before it
    | Running(hasContext: bool) // invoked; whether `#context` was set when it was
    | Rejected(err: Err)        // what it was chained on rejected with `err`

  datatype Link = Link(op: Op, stage: Stage)

  /** `#queue`. */
  datatype Queue = Settled(failure: Option<Err>) | Tail

  /** How an operation chained on `q` stands at once, `hasContext` telling
      whether `#context` is set. */
  function ChainedOn(q: Queue, hasContext: bool): (s: Stage)
    ensures s.Waiting? <==> q.Tail?
    ensures q == Settled(None) ==> s == Running(hasContext)
    ensures q.Settled? && q.failure.Some? ==> s == Rejected(q.failure.value)
  {
    match q
    case Settled(None) => Running(hasContext)
    case Settled(Some(e)) => Rejected(e)
    case Tail => Waiting
  }

  /** Once an operation settles with `failure`, the operation chained on it (if
      it is the next one) learns how its predecessor settled: it is invoked
      against `#context` as it is then, or rejects with the same error. */
  function Resolve(pending: seq<Link>, failure: Option<Err>, hasContext: bool): (r: seq<Link>)
    ensures |r| == |pending|
    ensures r != [] ==> !r[0].stage.Waiting? && r[0].op == pending[0].op && r[1..] == pending[1..]
    ensures r != [] && !pending[0].stage.Waiting? ==> r[0] == pending[0]
    ensures r != [] && pending[0].stage.Waiting? ==>
      r[0].stage == ChainedOn(Settled(failure), hasContext)
  {
    if pending != [] && pending[0].stage.Waiting? then
      [Link(pending[0].op, ChainedOn(Settled(failure), hasContext))] + pending[1..]
    else
      pending
  }

  /** The events an operation emits when it is invoked. */
  function OpEvents(op: Op): (r: seq<string>)
    ensures |r| <= 1
    ensures r == [PreviewEvent] <==> op.PreviewFrame?
    ensures r == [ImageEvent] <==> op.FullImage?
    ensures r == [] <==> !op.PreviewFrame? && !op.FullImage?
  {
    match op
    case PreviewFrame => [PreviewEvent]
    case FullImage => [ImageEvent]
    case _ => []
  }

  /** What the events log gains when `link` is chained: its capture event if it
      is invoked at once. */
  function Starting(link: Link): (r: seq<string>)
    ensures r != [] ==> link.stage.Running?
  {
    if link.stage.Running? then OpEvents(link.op) else []
  }

  /** What the events log gains when `Resolve` invokes the next operation. */
  function Resumed(pending: seq<Link>, failure: Option<Err>): (r: seq<string>)
    ensures r != [] ==> pending != [] && pending[0].stage.Waiting? && failure.None?
  {
    if pending != [] && pending[0].stage.Waiting? && failure.None? then OpEvents(pending[0].op) else []
  }

  /** What the `.catch` handler of the scheduler (camera.ts:104-111) does
      besides rethrowing. */
  datatype Effect = ForceDisconnected | ForceError | NoEffect

  function CatchEffect(err: Err): (r: Effect)
    ensures r == ForceDisconnected <==> IsDisconnectionError(err)
    // rethrowIfCritical never returns true, so the ERROR branch is dead
    ensures r != ForceError
  {
    if IsDisconnectionError(err) then ForceDisconnected
    else match RethrowIfCritical(err)
      case Threw(_) => NoEffect
      case Returned(critical) => if critical then ForceError else NoEffect
  }

  function Lift<T>(o: Outcome<T>, f: T -> Value): (r: Outcome<Value>)
    ensures r.Threw? <==> o.Threw?
    ensures o.Threw? ==> r.err == o.err
    ensures o.Returned? ==> r.value == f(o.value)
  {
    match o
    case Returned(v) => Returned(f(v))
    case Threw(e) => Threw(e)
  }

  /** How an invoked operation settles, given whether `#context` was set when
      it was invoked and how the driver answers. */
  function OpResult(op: Op, hasContext: bool, d: Answers): (r: Outcome<Value>)
    ensures !hasContext ==> r == Threw(NullContextError)
    ensures r.Returned? && op.WriteConfig? ==> op.value.Str? && d.setConfigValue.Returned?
    ensures hasContext && op.FullImage? ==> r == Lift(d.captureImageAsFile, p => File(p))
    ensures hasContext && op.PreviewFrame? ==> r == Lift(d.capturePreviewAsBlob, p => Blob(p))
  {
    if !hasContext then Threw(NullContextError)
    else match op
      case ReadConfig => Lift(d.configToJS(0), c => Tree(c))
      case WriteConfig(_, value) =>
        if d.setConfigValue.Threw? then Threw(d.setConfigValue.err)
        else
          var polled := Poll(d.configToJS, value, 0);
          PollOutcomes(d.configToJS, value, 0);
          Lift(polled.0, _ => Undefined)
      case PreviewFrame => Lift(d.capturePreviewAsBlob, p => Blob(p))
      case FullImage => Lift(d.captureImageAsFile, p => File(p))
      case DrainEvents => Lift(d.consumeEvents, b => Flag(b))
  }

  /** How the oldest pending operation settles: with its predecessor's error,
      without running, if that one failed; otherwise as the invoked operation
      runs. */
  function Invoked(link: Link, d: Answers): (r: Outcome<Value>)
    requires !link.stage.Waiting?
    ensures link.stage.Rejected? ==> r == Threw(link.stage.err)
    ensures link.stage == Running(false) ==> r == Threw(NullContextError)
  {
    match link.stage
    case Rejected(e) => Threw(e)
    case Running(hasContext) => OpResult(link.op, hasContext, d)
  }

  /** The body of an invoked operation, settling as the driver answers; the
      write is followed by the polling loop. */
  method RunOp(op: Op, hasContext: bool, d: Answers) returns (r: Outcome<Value>)
    ensures r == OpResult(op, hasContext, d)
  {
    if !hasContext {
      return Threw(NullContextError);         // `this.#context!` was null
    }
    match op
    case ReadConfig =>
      r := Lift(d.configToJS(0), c => Tree(c));
    case WriteConfig(_, value) =>
      if d.setConfigValue.Threw? {
        return Threw(d.setConfigValue.err);
      }
      var polled, _ := PollUntilApplied(d.configToJS, value);
      r := Lift(polled, _ => Undefined);
    case PreviewFrame =>
      r := Lift(d.capturePreviewAsBlob, p => Blob(p));
    case FullImage =>
      r := Lift(d.captureImageAsFile, p => File(p));
    case DrainEvents =>
      r := Lift(d.consumeEvents, b => Flag(b));
  }

  /** The error `connect` fails with, if any: the module load's, else the
      context constructor's. */
  function ConnectFailure(init: InitResult, newContext: Option<Err>): (r: Option<Err>)
    ensures init.LoadFailed? ==> r == Some(init.err)
    ensures init.Loaded? ==> r == newContext
  {
    if init.LoadFailed? then Some(init.err) else newContext
  }

  class Camera {
    /** The process-wide module cache this camera shares. */
    const driver: DriverModule

    var state: CameraState
    var stateLog: seq<CameraState>
    var events: seq<string>
    var context: Option<Ctx>
    var queue: Queue
    var chain: seq<Link>
    /** Recovery timers set by handleError that have not fired yet. */
    var pendingRecoveries: nat

    ghost predicate Valid()
      reads this
    {
      && |stateLog| > 0
      && stateLog[0] == Disconnected
      && stateLog[|stateLog| - 1] == state
      && Transitions(stateLog)
      && |events| > 0
      && (queue.Tail? ==> chain != [])
      && (chain != [] ==> !chain[0].stage.Waiting?)
    }

    /** The scheduler's single-flight discipline: at most one scheduled
        operation has been invoked and not settled (the oldest), every later
        one waits on its predecessor, and a settled `#queue` means nothing is
        pending. Every step keeps it except cancelCurrentOperation, which
        replaces `#queue` while an operation may still be pending. */
    ghost predicate SingleFlight()
      reads this
    {
      && (queue.Settled? ==> chain == [])
      && forall i :: 0 < i < |chain| ==> chain[i].stage.Waiting?
    }

    /** The driver context this camera holds, if any. */
    function Held(): set<object>
      reads this
    {
      if context.Some? then {context.value} else {}
    }

    constructor (driver: DriverModule)
      ensures Valid()
      ensures this.driver == driver
      ensures state == Disconnected && stateLog == [Disconnected] && events == [""]
      ensures context == None && queue == Settled(None) && chain == [] && pendingRecoveries == 0
      ensures SingleFlight()
    {
      this.driver := driver;
      state := Disconnected;
      stateLog := [Disconnected];
      events := [""];
      context := None;
      queue := Settled(None);
      chain := [];
      pendingRecoveries := 0;
    }

    /** `this.state.next(s)`, including the subscriber the constructor installs:
        publishing ERROR runs handleError at once. */
    method Publish(s: CameraState)
      requires Valid() && Step(state, s)
      modifies this`state, this`stateLog, this`events, this`pendingRecoveries
      ensures Valid()
      ensures state == s && stateLog == old(stateLog) + [s]
      ensures events == old(events) + (if s == Error then [ErrorEvent] else [])
      ensures pendingRecoveries == old(pendingRecoveries) + (if s == Error then 1 else 0)
    {
      TransitionsExtend(stateLog, s);
      state := s;
      stateLog := stateLog + [s];
      if s == Error {
        HandleError();
      }
    }

    /** handleError: announce the error and set a recovery timer. */
    method HandleError()
      modifies this`events, this`pendingRecoveries
      ensures events == old(events) + [ErrorEvent]
      ensures pendingRecoveries == old(pendingRecoveries) + 1
    {
      events := events + [ErrorEvent];
      pendingRecoveries := pendingRecoveries + 1;
    }

    /** A recovery timer fires (attemptRecovery). In ERROR it disconnects and
        then connects; disconnect has just published READY, so that connect
        is always refused. */
    method AttemptRecovery(init: InitResult, newContext: Option<Err>) returns (r: Option<Outcome<bool>>)
      requires Valid() && pendingRecoveries > 0
      modifies this, driver, Held()
      ensures Valid() && (old(SingleFlight()) ==> SingleFlight())
      ensures pendingRecoveries == old(pendingRecoveries) - 1
      ensures driver.promise == old(driver.promise)
      ensures queue == old(queue) && chain == old(chain)
      ensures old(state) != Error ==>
        r == None && state == old(state) && stateLog == old(stateLog)
        && events == old(events) && context == old(context)
      ensures old(state) == Error ==>
        r == Some(Threw(PlainError(AlreadyConnectedMessage)))
        && state == Ready && stateLog == old(stateLog) + [Ready]
        && events == old(events) + [DisconnectedEvent] && context == None
        && (old(context).Some? ==> old(context).value.deleted)
    {
      pendingRecoveries := pendingRecoveries - 1;
      if state == Error {
        Disconnect();
        var reconnected := Connect(init, newContext);
        r := Some(reconnected);
      } else {
        r := None;
      }
    }

    /** connect: only from DISCONNECTED. Creates the shared module promise on
        the first call in the process and reuses it afterwards, even when it
        was rejected. */
    method Connect(init: InitResult, newContext: Option<Err>) returns (r: Outcome<bool>)
      requires Valid()
      modifies this, driver
      ensures Valid() && (old(SingleFlight()) ==> SingleFlight())
      ensures old(state) != Disconnected ==>
        r == Threw(PlainError(AlreadyConnectedMessage)) && unchanged(this) && unchanged(driver)
      ensures old(state) == Disconnected ==>
        && driver.promise == (if old(driver.promise).Some? then old(driver.promise) else Some(init))
        && queue == old(queue) && chain == old(chain)
        && var failure := ConnectFailure(driver.promise.value, newContext);
           (failure.Some? ==>
              r == Threw(failure.value)
              && state == Error && stateLog == old(stateLog) + [Connecting, Error]
              && events == old(events) + [ErrorEvent, ConnectionErrorPrefix + failure.value.msg]
              && context == old(context) && pendingRecoveries == old(pendingRecoveries) + 1)
           && (failure.None? ==>
              r == Returned(true)
              && state == Ready && stateLog == old(stateLog) + [Connecting, Ready]
              && events == old(events) + [ConnectedEvent]
              && context.Some? && fresh(context.value) && !context.value.deleted
              && pendingRecoveries == old(pendingRecoveries))
    {
      if state != Disconnected {
        return Threw(PlainError(AlreadyConnectedMessage));
      }
      Publish(Connecting);
      if driver.promise.None? {
        driver.promise := Some(init);             // ModulePromise = initModule()
      }
      var failure: Option<Err> := None;
      var loaded := driver.promise.value;         // await ModulePromise
      if loaded.LoadFailed? {
        failure := Some(loaded.err);
      } else if newContext.Some? {
        failure := newContext;                    // new Module.Context() threw
      }
      if failure.Some? {
        ConnectFailed(failure.value);
        return Threw(failure.value);
      }
      ConnectSucceeded();
      r := Returned(true);
    }

    /** The success path of connect's `try` once the module is loaded. */
    method ConnectSucceeded()
      requires Valid() && state == Connecting
      modifies this`context, this`state, this`stateLog, this`events, this`pendingRecoveries
      ensures Valid()
      ensures state == Ready && stateLog == old(stateLog) + [Ready]
      ensures events == old(events) + [ConnectedEvent]
      ensures context.Some? && fresh(context.value) && !context.value.deleted
      ensures pendingRecoveries == old(pendingRecoveries)
    {
      var ctx := new Ctx();
      context := Some(ctx);
      Publish(Ready);
      events := events + [ConnectedEvent];
    }

    /** connect's `catch`, before it rethrows `err`. */
    method ConnectFailed(err: Err)
      requires Valid() && state == Connecting
      modifies this`state, this`stateLog, this`events, this`pendingRecoveries
      ensures Valid()
      ensures state == Error && stateLog == old(stateLog) + [Error]
      ensures events == old(events) + [ErrorEvent, ConnectionErrorPrefix + err.msg]
      ensures pendingRecoveries == old(pendingRecoveries) + 1
    {
      Publish(Error);
      events := events + [ConnectionErrorPrefix + err.msg];
    }

    /** The synchronous part of `#schedule(op)`: refused unless READY;
        otherwise publishes BUSY and chains `op` on `#queue`. On a queue that
        has already fulfilled, `op` is invoked at once: it takes `#context` as
        it is and emits its capture event. */
    method Begin(op: Op) returns (refused: Option<Err>)
      requires Valid()
      modifies this
      ensures Valid()
      ensures old(SingleFlight()) ==> SingleFlight()
      ensures old(state) != Ready ==> refused == Some(PlainError(NotReadyMessage)) && unchanged(this)
      ensures old(state) == Ready ==>
        var link := Link(op, ChainedOn(old(queue), old(context).Some?));
        && refused == None && state == Busy && stateLog == old(stateLog) + [Busy]
        && chain == old(chain) + [link] && queue == Tail
        && events == old(events) + Starting(link)
        && context == old(context) && pendingRecoveries == old(pendingRecoveries)
    {
      if state != Ready {
        return Some(PlainError(NotReadyMessage));
      }
      Publish(Busy);
      var link := Link(op, ChainedOn(queue, context.Some?));
      chain := chain + [link];
      queue := Tail;
      events := events + Starting(link);
      refused := None;
    }

    /** The oldest pending operation settles. It has run only if what it was
        chained on fulfilled; otherwise it rejects with that error. Then
        `.finally` publishes READY unless the state is DISCONNECTED at that
        moment, and the `.catch` on the new `#queue` hands a disconnection
        error to handleDisconnection. Every failure reaches the caller and
        leaves the new `#queue` rejected; the next operation is invoked if
        this one fulfilled. */
    method Settle(d: Answers) returns (r: Outcome<Value>)
      requires Valid() && chain != []
      modifies this`state, this`stateLog, this`events, this`pendingRecoveries, this`chain, this`queue
      ensures Valid() && (old(SingleFlight()) ==> SingleFlight())
      ensures r == Invoked(old(chain[0]), d)
      ensures events == old(events)
                        + (if r.Threw? && IsDisconnectionError(r.err) then [DisconnectionEvent] else [])
                        + Resumed(old(chain[1..]), FailureOf(r))
      ensures stateLog == old(stateLog)
                          + (if old(state) != Disconnected then [Ready] else [])
                          + (if r.Threw? && IsDisconnectionError(r.err) then [Disconnected] else [])
      ensures chain == Resolve(old(chain[1..]), FailureOf(r), old(context).Some?)
      ensures queue == (if old(queue).Tail? && |old(chain)| == 1 then Settled(FailureOf(r)) else old(queue))
      ensures context == old(context) && pendingRecoveries == old(pendingRecoveries)
    {
      match chain[0].stage {
        case Rejected(e) =>
          r := Threw(e);
        case Running(hasContext) =>
          r := RunOp(chain[0].op, hasContext, d);
      }
      Finally();
      if r.Threw? {
        Catch(r.err);
      }
      Advance(FailureOf(r));
    }

    /** The scheduler's `.finally`: back to READY unless DISCONNECTED. */
    method Finally()
      requires Valid()
      modifies this`state, this`stateLog, this`events, this`pendingRecoveries
      ensures Valid()
      ensures stateLog == old(stateLog) + (if old(state) != Disconnected then [Ready] else [])
      ensures events == old(events) && pendingRecoveries == old(pendingRecoveries)
    {
      if state != Disconnected {
        Publish(Ready);
      }
    }

    /** The `.catch` on the new `#queue`, before it rethrows `err`. */
    method Catch(err: Err)
      requires Valid()
      modifies this`state, this`stateLog, this`events, this`pendingRecoveries
      ensures Valid()
      ensures stateLog == old(stateLog) + (if IsDisconnectionError(err) then [Disconnected] else [])
      ensures events == old(events) + (if IsDisconnectionError(err) then [DisconnectionEvent] else [])
      ensures pendingRecoveries == old(pendingRecoveries)
    {
      match CatchEffect(err)
      case ForceDisconnected => HandleDisconnection();
      case NoEffect =>
    }

    /** The oldest pending operation leaves the chain, having settled with
        `failure`; the operation chained on it learns that outcome (and, if it
        fulfilled, is invoked against `#context` as it is now), and a pending
        `#queue` that was this operation's promise is now settled. */
    method Advance(failure: Option<Err>)
      requires Valid() && chain != []
      modifies this`chain, this`queue, this`events
      ensures Valid() && (old(SingleFlight()) ==> SingleFlight())
      ensures chain == Resolve(old(chain[1..]), failure, context.Some?)
      ensures events == old(events) + Resumed(old(chain[1..]), failure)
      ensures queue == (if old(queue).Tail? && |old(chain)| == 1 then Settled(failure) else old(queue))
    {
      events := events + Resumed(chain[1..], failure);
      chain := Resolve(chain[1..], failure, context.Some?);
      if chain == [] && queue.Tail? {
        queue := Settled(failure);
      }
    }

    /** handleDisconnection. */
    method HandleDisconnection()
      requires Valid()
      modifies this`state, this`stateLog, this`events, this`pendingRecoveries
      ensures Valid()
      ensures state == Disconnected && stateLog == old(stateLog) + [Disconnected]
      ensures events == old(events) + [DisconnectionEvent]
      ensures pendingRecoveries == old(pendingRecoveries)
    {
      Publish(Disconnected);
      events := events + [DisconnectionEvent];
    }

    /** disconnect: deletes the context only when one is held and not yet
        deleted, drops it, and publishes READY (not DISCONNECTED). */
    method Disconnect()
      requires Valid()
      modifies this, Held()
      ensures Valid() && (old(SingleFlight()) ==> SingleFlight())
      ensures context == None && state == Ready && stateLog == old(stateLog) + [Ready]
      ensures events == old(events) + [DisconnectedEvent]
      ensures old(context).Some? ==> old(context).value.deleted
      ensures queue == old(queue) && chain == old(chain) && pendingRecoveries == old(pendingRecoveries)
    {
      if context.Some? && !context.value.IsDeleted() {
        context.value.Delete();
      }
      context := None;
      Publish(Ready);
      events := events + [DisconnectedEvent];
    }

    /** cancelCurrentOperation: `#queue` becomes a fulfilled promise again and
        READY is published. Operations already chained are left as they are. */
    method CancelCurrentOperation()
      requires Valid()
      modifies this
      ensures Valid()
      ensures SingleFlight() <==> old(chain) == []
      ensures queue == Settled(None) && state == Ready && stateLog == old(stateLog) + [Ready]
      ensures events == old(events) + [CancelledEvent]
      ensures chain == old(chain) && context == old(context) && pendingRecoveries == old(pendingRecoveries)
    {
      queue := Settled(None);
      Publish(Ready);
      events := events + [CancelledEvent];
    }

    /** getSupportedOps: asks the held context directly, outside the queue and
        whatever the state; fails only when no context is held. */
    method GetSupportedOps(ops: SupportedOps) returns (r: Outcome<SupportedOps>)
      ensures r.Returned? <==> context.Some?
      ensures r.Returned? ==> r.value == ops
      ensures r.Threw? ==> r.err == PlainError(NotConnectedMessage)
    {
      if context.Some? {
        return Returned(ops);                     // this.#context.supportedOps()
      }
      r := Threw(PlainError(NotConnectedMessage));
    }

    /** getConfig. */
    method GetConfig() returns (refused: Option<Err>)
      requires Valid()
      modifies this
      ensures Valid() && (old(SingleFlight()) ==> SingleFlight())
      ensures old(state) != Ready ==> refused == Some(PlainError(NotReadyMessage)) && unchanged(this)
      ensures old(state) == Ready ==>
        var link := Link(ReadConfig, ChainedOn(old(queue), old(context).Some?));
        && refused == None && state == Busy && stateLog == old(stateLog) + [Busy]
        && chain == old(chain) + [link] && queue == Tail
        && events == old(events) + Starting(link)
        && context == old(context) && pendingRecoveries == old(pendingRecoveries)
    {
      refused := Begin(ReadConfig);
    }

    /** setConfigValue: the write and the polling loop run as one operation. */
    method SetConfigValue(name: string, value: Primitive) returns (refused: Option<Err>)
      requires Valid()
      modifies this
      ensures Valid() && (old(SingleFlight()) ==> SingleFlight())
      ensures old(state) != Ready ==> refused == Some(PlainError(NotReadyMessage)) && unchanged(this)
      ensures old(state) == Ready ==>
        var link := Link(WriteConfig(name, value), ChainedOn(old(queue), old(context).Some?));
        && refused == None && state == Busy && stateLog == old(stateLog) + [Busy]
        && chain == old(chain) + [link] && queue == Tail
        && events == old(events) + Starting(link)
        && context == old(context) && pendingRecoveries == old(pendingRecoveries)
    {
      refused := Begin(WriteConfig(name, value));
    }

    /** capturePreviewAsBlob. */
    method CapturePreviewAsBlob() returns (refused: Option<Err>)
      requires Valid()
      modifies this
      ensures Valid() && (old(SingleFlight()) ==> SingleFlight())
      ensures old(state) != Ready ==> refused == Some(PlainError(NotReadyMessage)) && unchanged(this)
      ensures old(state) == Ready ==>
        var link := Link(PreviewFrame, ChainedOn(old(queue), old(context).Some?));
        && refused == None && state == Busy && stateLog == old(stateLog) + [Busy]
        && chain == old(chain) + [link] && queue == Tail
        && events == old(events) + Starting(link)
        && context == old(context) && pendingRecoveries == old(pendingRecoveries)
    {
      refused := Begin(PreviewFrame);
    }

    /** captureImageAsFile. */
    method CaptureImageAsFile() returns (refused: Option<Err>)
      requires Valid()
      modifies this
      ensures Valid() && (old(SingleFlight()) ==> SingleFlight())
      ensures old(state) != Ready ==> refused == Some(PlainError(NotReadyMessage)) && unchanged(this)
      ensures old(state) == Ready ==>
        var link := Link(FullImage, ChainedOn(old(queue), old(context).Some?));
        && refused == None && state == Busy && stateLog == old(stateLog) + [Busy]
        && chain == old(chain) + [link] && queue == Tail
        && events == old(events) + Starting(link)
        && context == old(context) && pendingRecoveries == old(pendingRecoveries)
    {
      refused := Begin(FullImage);
    }

    /** consumeEvents. */
    method ConsumeEvents() returns (refused: Option<Err>)
      requires Valid()
      modifies this
      ensures Valid() && (old(SingleFlight()) ==> SingleFlight())
      ensures old(state) != Ready ==> refused == Some(PlainError(NotReadyMessage)) && unchanged(this)
      ensures old(state) == Ready ==>
        var link := Link(DrainEvents, ChainedOn(old(queue), old(context).Some?));
        && refused == None && state == Busy && stateLog == old(stateLog) + [Busy]
        && chain == old(chain) + [link] && queue == Tail
        && events == old(events) + Starting(link)
        && context == old(context) && pendingRecoveries == old(pendingRecoveries)
    {
      refused := Begin(DrainEvents);
    }
  }
}
