/** The compiled driver the controller talks to (src/libapi.ts, src/libapi.types.ts).

    The driver is foreign WebAssembly code. It is not modelled; what it answers is
    given to the model as parameters (oracles). Only its shapes and the two pieces
    of state the controller looks at are kept: whether a context has been deleted,
    and the module-level `ModulePromise` cache of camera.ts. */
module Driver {
  import opened Failures

  /** A configuration value a caller may write: `number | string | boolean`. */
  datatype Primitive = Num(n: int) | Str(s: string) | Bool(b: bool)

  /** The root of the configuration tree, a `window` widget. Only its own name
      is kept, the one field the controller reads; the rest is opaque here. */
  datatype ConfigTree = ConfigTree(name: string)

  /** The capability record reported by `Context.supportedOps()`. */
  datatype SupportedOps = SupportedOps(
    captureImage: bool, captureVideo: bool, captureAudio: bool,
    capturePreview: bool, config: bool, triggerCapture: bool)

  /** A `Blob` or `File` payload; its contents are opaque. */
  type Payload = seq<bv8>

  /** How the driver answers the calls one scheduled operation makes on its
      context. `configToJS(k)` is the answer to the k-th `configToJS()` call of
      that operation (counting from 0). */
  datatype Answers = Answers(
    configToJS: nat -> Outcome<ConfigTree>,
    setConfigValue: Outcome<()>,
    capturePreviewAsBlob: Outcome<Payload>,
    captureImageAsFile: Outcome<Payload>,
    consumeEvents: Outcome<bool>)

  /** How `initModule()` settles. */
  datatype InitResult = Loaded | LoadFailed(err: Err)

  /** The module-level `ModulePromise`: unset until the first connect creates it,
      then shared by every camera for the rest of the process. */
  class DriverModule {
    var promise: Option<InitResult>

    constructor ()
      ensures promise == None
    {
      promise := None;
    }
  }

  /** A driver context (`new Module.Context()`): an embind handle that can be
      deleted once. Deleting an already deleted handle is an error in embind, so
      `Delete` demands that the handle is still live. */
  class Ctx {
    var deleted: bool

    constructor ()
      ensures !deleted && !IsDeleted()
    {
      deleted := false;
    }

    /** `isDeleted()`. */
    predicate IsDeleted()
      reads this
    {
      deleted
    }

    /** `delete()`: only on a live handle; afterwards it reports itself deleted. */
    method Delete()
      requires !IsDeleted()
      modifies this
      ensures deleted && IsDeleted()
    {
      deleted := true;
    }
  }
}
